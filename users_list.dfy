// "users list": prints the users named on the command line (each must
// resolve to exactly one GitLab user) or, when none is named, every user;
// then, when an output file is set, appends what it found to that users file.

module UsersList {
  import opened Wrappers
  import opened Strings
  import opened Flags
  import opened Paging
  import opened GitlabUtil
  import opened XmlUsers
  import opened Environment

  // The fields of UsersListOptions, stored under `prefix`.
  function OutputFileNameField(prefix: string): string { prefix + ".OutputFileName" }
  function UsersField(prefix: string): string { prefix + ".Users" }

  /** The flags Initialize registers: --out, and --users, which appends comma-separated names. */
  function Bindings(prefix: string): map<string, Flag>
  {
    map["out" := Flag(OutputFileNameField(prefix), StringKind), "users" := Flag(UsersField(prefix), ListKind)]
  }

  /** The fields after Initialize: --out registered with the current value; the users list is untouched. */
  function Registered(fields: Fields, prefix: string): Fields
  {
    KeepCurrent(fields, OutputFileNameField(prefix), StringKind)
  }

  /** Registration keeps the output file name and the users list, and touches no other field. */
  lemma RegisteredKeepsValues(fields: Fields, prefix: string)
    ensures var f := Registered(fields, prefix);
            StrAt(f, OutputFileNameField(prefix)) == StrAt(fields, OutputFileNameField(prefix))
            && ListAt(f, UsersField(prefix)) == ListAt(fields, UsersField(prefix))
            && forall k :: k != OutputFileNameField(prefix) ==> SameAt(fields, f, k)
  {
    var n := |prefix| + 1;
    assert OutputFileNameField(prefix)[n] == 'O' && UsersField(prefix)[n] == 'U';
    KeepCurrentKeepsValues(fields, OutputFileNameField(prefix), StringKind);
  }

  /** UsersListOptions.Initialize. */
  method Initialize(o: Store, prefix: string, flags: FlagSet)
    requires flags.formal.Keys !! Bindings(prefix).Keys
    modifies o, flags
    ensures flags.formal == old(flags.formal) + Bindings(prefix)
    ensures o.fields == Registered(old(o.fields), prefix)
    ensures flags.actual == old(flags.actual) && flags.args == old(flags.args) && flags.parsed == old(flags.parsed)
  {
    flags.Define(o, "out", OutputFileNameField(prefix), Str(StrAt(o.fields, OutputFileNameField(prefix))));
    flags.DefineList("users", UsersField(prefix));
  }

  /** printUser: "%6d %-16s %-24s %s" over ID, username, name and e-mail. */
  function UserLine(u: User): string
  {
    PadLeft(IntToString(u.id), 6) + " " + PadRight(u.username, 16) + " " + PadRight(u.name, 24) + " " + u.email
  }

  /** The printed user's fields can be read back from their columns. */
  lemma UserLineColumns(u: User)
    requires |IntToString(u.id)| <= 6 && |u.username| <= 16 && |u.name| <= 24
    ensures var line := UserLine(u);
            line[6] == ' ' && line[23] == ' ' && line[48] == ' '
            && line[6 - |IntToString(u.id)|..6] == IntToString(u.id)
            && line[7..7 + |u.username|] == u.username
            && line[24..24 + |u.name|] == u.name
            && line[49..] == u.email
  {
    PaddedColumns(IntToString(u.id), u.username, u.name, u.email);
  }

  /** The columns of printUser's format, whatever the text in them. */
  lemma PaddedColumns(digits: string, username: string, name: string, email: string)
    requires |digits| <= 6 && |username| <= 16 && |name| <= 24
    ensures var line := PadLeft(digits, 6) + " " + PadRight(username, 16) + " " + PadRight(name, 24) + " " + email;
            line[6] == ' ' && line[23] == ' ' && line[48] == ' '
            && line[6 - |digits|..6] == digits
            && line[7..7 + |username|] == username
            && line[24..24 + |name|] == name
            && line[49..] == email
  {
    LineColumns(PadLeft(digits, 6), PadRight(username, 16), PadRight(name, 24), email, digits, username, name);
  }

  /**
   * Columns of widths 6, 16 and 24 separated by single spaces, then the rest:
   * text right-aligned in the first column and left-aligned in the next two
   * is found where it was put.
   */
  lemma LineColumns(id: string, user: string, padded: string, rest: string, digits: string, username: string, name: string)
    requires |id| == 6 && |user| == 16 && |padded| == 24
    requires |digits| <= 6 && id[6 - |digits|..] == digits
    requires |username| <= 16 && user[..|username|] == username
    requires |name| <= 24 && padded[..|name|] == name
    ensures var line := id + " " + user + " " + padded + " " + rest;
            line[6] == ' ' && line[23] == ' ' && line[48] == ' '
            && line[6 - |digits|..6] == digits
            && line[7..7 + |username|] == username
            && line[24..24 + |name|] == name
            && line[49..] == rest
  {
    var line := id + " " + user + " " + padded + " " + rest;
    var a3 := id + " " + user + " " + padded + " ";
    assert line == a3 + rest && |a3| == 49;
    assert line[..49] == a3;
    assert line[6 - |digits|..6] == id[6 - |digits|..];
    assert line[7..7 + |username|] == user[..|username|];
    assert line[24..24 + |name|] == padded[..|name|];
  }

  /** The warning printed, once, before the first lookup by e-mail address. */
  const EmailWarning := "*** Warning: searching by e-mail address has not been verified to work.  "
    + "If you have problems, try searching by username instead."

  /** The state of Run's lookup loop. */
  datatype Lookup = Lookup(found: seq<User>, effects: seq<Effect>, warned: bool, err: Option<string>)

  /** What FindExactUser answers for each named user. */
  function Resolved(s: UsersService, users: seq<string>): (rs: seq<Result<User>>)
    requires UsersForward(s)
    ensures |rs| == |users|
    ensures forall i :: 0 <= i < |users| ==> rs[i] == ExactUser(s, users[i])
  {
    seq(|users|, i requires 0 <= i < |users| => ExactUser(s, users[i]))
  }

  /** One round of the lookup loop, given what FindExactUser answered for `user`. */
  function LookupOne(st: Lookup, user: string, r: Result<User>, line: User -> string): Lookup
  {
    var warn := !st.warned && '@' in user;
    var effects := st.effects + (if warn then [Warning(EmailWarning)] else []);
    match r
    case Err(_) => Lookup(st.found, effects, st.warned || warn, Some("unable to find user: " + Quote(user) + "\n"))
    case Ok(u) => Lookup(st.found + [u], effects + [Output(line(u))], st.warned || warn, None)
  }

  /** The first `n` rounds of the lookup loop over `users`, answered by `rs`; a failed lookup ends it. */
  function Lookups(users: seq<string>, rs: seq<Result<User>>, line: User -> string, n: nat): Lookup
    requires n <= |users| == |rs|
  {
    if n == 0 then Lookup([], [], false, None)
    else
      var st := Lookups(users, rs, line, n - 1);
      if st.err.Some? then st else LookupOne(st, users[n - 1], rs[n - 1], line)
  }

  /** The first of the first `n` answers that is an error; `n` when none is. */
  function FirstUnknown(rs: seq<Result<User>>, n: nat): (k: nat)
    requires n <= |rs|
    ensures k <= n
    ensures forall j :: 0 <= j < k ==> rs[j].Ok?
    ensures k < n ==> rs[k].Err?
  {
    if n == 0 then 0
    else
      var k := FirstUnknown(rs, n - 1);
      if k < n - 1 then k
      else if rs[n - 1].Err? then n - 1
      else n
  }

  /**
   * The lookup loop resolves every named user, in order, each to its answer;
   * the first name that does not resolve ends it with an error naming it,
   * after the users found before it.
   */
  lemma {:induction false} LookupsResolveInOrder(users: seq<string>, rs: seq<Result<User>>, line: User -> string, n: nat)
    requires n <= |users| == |rs|
    ensures var st := Lookups(users, rs, line, n);
            var k := FirstUnknown(rs, n);
            |st.found| == k
            && (forall j :: 0 <= j < k ==> rs[j] == Ok(st.found[j]))
            && (k == n <==> st.err.None?)
            && (k < n ==> st.err == Some("unable to find user: " + Quote(users[k]) + "\n"))
  {
    if n > 0 {
      LookupsResolveInOrder(users, rs, line, n - 1);
      var st := Lookups(users, rs, line, n - 1);
      var k := FirstUnknown(rs, n - 1);
      if st.err.Some? {
        assert k < n - 1;
        assert Lookups(users, rs, line, n) == st;
      } else {
        assert k == n - 1;
        var next := LookupOne(st, users[n - 1], rs[n - 1], line);
        assert Lookups(users, rs, line, n) == next;
        match rs[n - 1]
        case Err(_) =>
          assert next.found == st.found;
        case Ok(u) =>
          assert next.found == st.found + [u];
          assert next.err.None?;
      }
    }
  }

  /** The number of warnings among the effects. */
  function WarningCount(effects: seq<Effect>): nat
  {
    if effects == [] then 0
    else WarningCount(effects[..|effects| - 1]) + (if effects[|effects| - 1].Warning? then 1 else 0)
  }

  lemma {:induction false} WarningCountAppend(a: seq<Effect>, b: seq<Effect>)
    ensures WarningCount(a + b) == WarningCount(a) + WarningCount(b)
    decreases |b|
  {
    if b == [] {
      assert a + b == a;
    } else {
      assert (a + b)[..|a + b| - 1] == a + b[..|b| - 1];
      WarningCountAppend(a, b[..|b| - 1]);
    }
  }

  /** The e-mail warning is printed at most once: the effects hold one warning when it was printed, none otherwise. */
  lemma {:induction false} LookupsWarnOnce(users: seq<string>, rs: seq<Result<User>>, line: User -> string, n: nat)
    requires n <= |users| == |rs|
    ensures var st := Lookups(users, rs, line, n);
            WarningCount(st.effects) == (if st.warned then 1 else 0)
  {
    if n > 0 {
      LookupsWarnOnce(users, rs, line, n - 1);
      var st := Lookups(users, rs, line, n - 1);
      if st.err.None? {
        var next := LookupOne(st, users[n - 1], rs[n - 1], line);
        assert Lookups(users, rs, line, n) == next;
        var warn := !st.warned && '@' in users[n - 1];
        var warning: seq<Effect> := if warn then [Warning(EmailWarning)] else [];
        WarningCountAppend(st.effects, warning);
        if warn {
          WarningCountOne(Warning(EmailWarning));
        }
        match rs[n - 1]
        case Err(_) =>
        case Ok(u) =>
          WarningCountAppend(st.effects + warning, [Output(line(u))]);
          WarningCountOne(Output(line(u)));
      }
    }
  }

  lemma WarningCountOne(e: Effect)
    ensures WarningCount([e]) == if e.Warning? then 1 else 0
  {
    assert [e][..0] == [];
  }

  /** The warning is printed exactly when a name looked up so far, the failing one included, contains '@'. */
  lemma {:induction false} LookupsWarnOnEmail(users: seq<string>, rs: seq<Result<User>>, line: User -> string, n: nat)
    requires n <= |users| == |rs|
    ensures var k := FirstUnknown(rs, n);
            var looked := if k < n then k + 1 else n;
            Lookups(users, rs, line, n).warned <==> exists j :: 0 <= j < looked && '@' in users[j]
  {
    if n > 0 {
      LookupsWarnOnEmail(users, rs, line, n - 1);
      LookupsResolveInOrder(users, rs, line, n - 1);
      var st := Lookups(users, rs, line, n - 1);
      var k := FirstUnknown(rs, n - 1);
      if st.err.Some? {
        assert k < n - 1;
        assert FirstUnknown(rs, n) == k;
        assert Lookups(users, rs, line, n) == st;
      } else {
        assert k == n - 1;
        var next := Lookups(users, rs, line, n);
        assert next == LookupOne(st, users[n - 1], rs[n - 1], line);
        assert next.warned == (st.warned || '@' in users[n - 1]);
        if next.warned {
          if st.warned {
            var j :| 0 <= j < n - 1 && '@' in users[j];
            assert 0 <= j < n;
          } else {
            assert 0 <= n - 1 < n && '@' in users[n - 1];
          }
        } else {
          forall j | 0 <= j < n
            ensures '@' !in users[j]
          {
          }
        }
      }
    }
  }

  /** One round of Run's lookup loop: warn before the first e-mail address, then FindExactUser and print. */
  method LookupUser(s: UsersService, found: seq<User>, effects: seq<Effect>, warned: bool, user: string)
    returns (st: Lookup)
    requires UsersForward(s)
    ensures st == LookupOne(Lookup(found, effects, warned, None), user, ExactUser(s, user), UserLine)
  {
    st := Lookup(found, effects, warned, None);
    if !warned && '@' in user {
      st := st.(effects := effects + [Warning(EmailWarning)], warned := true);
    }
    var u := FindExactUser(s, user);
    if u.Err? {
      return st.(err := Some("unable to find user: " + Quote(user) + "\n"));
    }
    st := st.(found := found + [u.value], effects := st.effects + [Output(UserLine(u.value))]);
  }

  /** Run's lookup loop over the named users. */
  method FindUsers(s: UsersService, users: seq<string>) returns (found: seq<User>, effects: seq<Effect>, err: Option<string>)
    requires UsersForward(s)
    ensures var st := Lookups(users, Resolved(s, users), UserLine, |users|);
            found == st.found && effects == st.effects && err == st.err
  {
    ghost var rs := Resolved(s, users);
    found, effects := [], [];
    var warned := false;
    for i := 0 to |users|
      invariant Lookups(users, rs, UserLine, i) == Lookup(found, effects, warned, None)
    {
      var st := LookupUser(s, found, effects, warned, users[i]);
      assert Lookups(users, rs, UserLine, i + 1) == st;
      if st.err.Some? {
        LookupsStopAfterError(users, rs, UserLine, i + 1, |users|);
        return st.found, st.effects, st.err;
      }
      found, effects, warned := st.found, st.effects, st.warned;
    }
    err := None;
  }

  /** Once a lookup fails, later rounds change nothing. */
  lemma {:induction false} LookupsStopAfterError(users: seq<string>, rs: seq<Result<User>>, line: User -> string, m: nat, n: nat)
    requires m <= n <= |users| == |rs|
    requires Lookups(users, rs, line, m).err.Some?
    ensures Lookups(users, rs, line, n) == Lookups(users, rs, line, m)
    decreases n
  {
    if m < n {
      LookupsStopAfterError(users, rs, line, m, n - 1);
      assert Lookups(users, rs, line, n - 1).err.Some?;
    }
  }

  /** The users the list-all walk collects: its callback always continues, and ForEachUser's error is dropped. */
  function AllUsers(s: UsersService): seq<User>
    requires UsersForward(s)
  {
    WalkFrom(s.listUsers(""), "ForEachUser", Everything<User>(), CollectUser, 1).called
  }

  /** One printed line per user, in order. */
  function UserLines(us: seq<User>): (r: seq<Effect>)
    ensures |r| == |us|
    ensures forall i :: 0 <= i < |us| ==> r[i] == Output(UserLine(us[i]))
  {
    seq(|us|, i requires 0 <= i < |us| => Output(UserLine(us[i])))
  }

  /** Listing all users collects every user the service lists until its first page error. */
  lemma AllUsersIsListing(s: UsersService)
    requires UsersForward(s)
    ensures AllUsers(s) == ListFrom(s.listUsers(""), 1).items
  {
    WalkAllContinue(s.listUsers(""), "ForEachUser", Everything<User>(), CollectUser, 1);
    FilterAll(Everything<User>(), ListFrom(s.listUsers(""), 1).items);
  }

  /** The users Run found and what it printed, before anything is written. */
  function Gathered(fields: Fields, prefix: string, s: UsersService): Lookup
    requires UsersForward(s)
  {
    var users := ListAt(fields, UsersField(prefix));
    if |users| > 0 then Lookups(users, Resolved(s, users), UserLine, |users|)
    else
      var all := AllUsers(s);
      Lookup(all, UserLines(all), false, None)
  }

  /**
   * What Run does once its flags are parsed into `fields`; `failures` are the
   * destinations where writing the users file fails.
   */
  function Execute(fields: Fields, prefix: string, client: Client, env: Env, disk: Disk,
                   failures: map<string, string>): Outcome
    requires Serves(client)
  {
    var g := Gathered(fields, prefix, client.users);
    var name := StrAt(fields, OutputFileNameField(prefix));
    if g.err.Some? then Outcome(g.err, g.effects, fields, disk)
    else if name == "" then Outcome(None, g.effects, fields, disk)
    else
      var (err, after) := Written(disk, failures, name, g.found, env.order);
      Outcome(err, g.effects, fields, after)
  }

  /** Run: parse the flags, then Execute. */
  function RunOutcome(formal: map<string, Flag>, actual: set<string>, fields: Fields, prefix: string,
                      client: Client, env: Env, disk: Disk, failures: map<string, string>, args: seq<string>): Outcome
    requires Serves(client)
  {
    var p := ParseArgs(formal, fields, args, actual);
    if p.err.Some? then ParseFailed(p, disk) else Execute(p.fields, prefix, client, env, disk, failures)
  }

  /**
   * Nothing is written when a named user cannot be found or no output file
   * is set; otherwise exactly the users found go to the file, and a file
   * written successfully then holds them after the users it kept.
   */
  lemma ExecuteWritesFound(fields: Fields, prefix: string, client: Client, env: Env, disk: Disk,
                           failures: map<string, string>)
    requires Serves(client)
    ensures var g := Gathered(fields, prefix, client.users);
            var name := StrAt(fields, OutputFileNameField(prefix));
            var r := Execute(fields, prefix, client, env, disk, failures);
            r.effects == g.effects
            && (g.err.Some? || name == "" ==> r.disk == disk && r.err == g.err)
            && (g.err.None? && name != "" ==> (r.err, r.disk) == Written(disk, failures, name, g.found, env.order))
            && (g.err.None? && name != "" && name != "-" && r.err.None? ==>
                  ReadUsers(r.disk.files, name).Ok?
                  && var kept := ReadUsers(r.disk.files, name).value;
                     |kept| >= |g.found| && kept[|kept| - |g.found|..] == Converted(g.found))
  {
    var g := Gathered(fields, prefix, client.users);
    var name := StrAt(fields, OutputFileNameField(prefix));
    if g.err.None? && name != "" && name != "-" {
      var r := Written(disk, failures, name, g.found, env.order);
      if r.0.None? {
        var merged := Merged(ReadUsers(disk.files, name), Converted(g.found));
        WrittenReadsBack(disk.files, name, merged);
        assert merged[|merged| - |g.found|..] == Converted(g.found);
      }
    }
  }

  /** UsersListCommand. */
  class UsersListCommand {
    const name: string
    const store: Store
    const prefix: string
    const flags: FlagSet
    const client: Client

    ghost predicate Valid()
    {
      Serves(client)
    }

    /** NewUsersListCommand: a fresh flag set with --out and --users. */
    constructor (name: string, store: Store, prefix: string, client: Client)
      modifies store
      ensures this.name == name && this.store == store && this.prefix == prefix && this.client == client
      ensures fresh(flags) && flags.name == name && flags.formal == Bindings(prefix)
      ensures flags.actual == {} && flags.args == [] && !flags.parsed
      ensures store.fields == Registered(old(store.fields), prefix)
    {
      this.name := name;
      this.store := store;
      this.prefix := prefix;
      this.client := client;
      var fs := new FlagSet(name);
      flags := fs;
      new;
      Initialize(store, prefix, flags);
    }

    /** Run: parse, find or list the users, then write them when an output file is set. */
    method Run(env: Env, fs: FileSystem, args: seq<string>) returns (err: Option<string>, effects: seq<Effect>)
      requires Valid()
      modifies store, flags, fs
      ensures var p := ParseArgs(old(flags.formal), old(store.fields), args, old(flags.actual));
              flags.formal == old(flags.formal) && flags.actual == p.actual && flags.args == p.rest && flags.parsed
      ensures Outcome(err, effects, store.fields, fs.Contents())
              == RunOutcome(old(flags.formal), old(flags.actual), old(store.fields), prefix, client, env,
                            old(fs.Contents()), fs.failures, args)
    {
      err := flags.Parse(store, args);
      if err.Some? {
        return err, [];
      }
      var users := ListAt(store.fields, UsersField(prefix));
      var found: seq<User>;
      if |users| > 0 {
        found, effects, err := FindUsers(client.users, users);
        if err.Some? {
          return;
        }
      } else {
        var ignored;
        found, ignored := ForEachUser(client.users, "", CollectUser);
        effects := UserLines(found);
      }
      var outputFileName := StrAt(store.fields, OutputFileNameField(prefix));
      if outputFileName != "" {
        err := fs.WriteUsers(outputFileName, found, env.order);
        if err.Some? {
          return;
        }
      }
      err := None;
    }
  }
}
