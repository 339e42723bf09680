// The users file: a list of users (ID, user name, e-mail, name) kept in XML.
// ReadUsers loads it, WriteUsers replaces it after merging in the users it
// already holds, and a user name may occur only once in what is written.

module XmlUsers {
  import opened Wrappers
  import opened Strings
  import GitlabUtil

  /** One <user> element. */
  datatype XmlUser = XmlUser(id: int, username: string, email: string, name: string)

  /** FromGitlabUser: keeps ID, user name, e-mail and name, and drops the rest. */
  function FromGitlabUser(u: GitlabUtil.User): (x: XmlUser)
    ensures x.id == u.id && x.username == u.username && x.email == u.email && x.name == u.name
  {
    XmlUser(u.id, u.username, u.email, u.name)
  }

  /** The conversion of a whole list, element by element. */
  function Converted(us: seq<GitlabUtil.User>): (r: seq<XmlUser>)
    ensures |r| == |us|
    ensures forall i :: 0 <= i < |us| ==> r[i] == FromGitlabUser(us[i])
  {
    seq(|us|, i requires 0 <= i < |us| => FromGitlabUser(us[i]))
  }

  /** FromGitlabUsers: one converted user per input user, in the same order. */
  method FromGitlabUsers(us: seq<GitlabUtil.User>) returns (r: seq<XmlUser>)
    ensures r == Converted(us)
  {
    r := [];
    for i := 0 to |us|
      invariant r == Converted(us[..i])
    {
      r := r + [FromGitlabUser(us[i])];
    }
    assert us[..|us|] == us;
  }

  /** The user names, in order. */
  function Usernames(users: seq<XmlUser>): (r: seq<string>)
    ensures |r| == |users|
    ensures forall i :: 0 <= i < |users| ==> r[i] == users[i].username
  {
    seq(|users|, i requires 0 <= i < |users| => users[i].username)
  }

  /** How often a user name occurs. */
  function Occurrences(users: seq<XmlUser>, name: string): nat
  {
    if users == [] then 0
    else Occurrences(users[..|users| - 1], name) + (if users[|users| - 1].username == name then 1 else 0)
  }

  /** The map CountUsers builds, one user at a time. */
  function CountMap(users: seq<XmlUser>): map<string, nat>
  {
    if users == [] then map[]
    else
      var m := CountMap(users[..|users| - 1]);
      var n := users[|users| - 1].username;
      m[n := (if n in m then m[n] else 0) + 1]
  }

  lemma UsernamesSnoc(users: seq<XmlUser>)
    requires users != []
    ensures Usernames(users) == Usernames(users[..|users| - 1]) + [users[|users| - 1].username]
  {
  }

  /** A user name occurs iff it is one of the user names. */
  lemma {:induction false} OccurrencesNamed(users: seq<XmlUser>, name: string)
    ensures Occurrences(users, name) > 0 <==> name in Usernames(users)
  {
    if users != [] {
      OccurrencesNamed(users[..|users| - 1], name);
      UsernamesSnoc(users);
    }
  }

  /** CountUsers maps each user name to its number of occurrences, and holds no other key. */
  lemma {:induction false} CountMapIsOccurrences(users: seq<XmlUser>)
    ensures forall n :: (n in CountMap(users) <==> Occurrences(users, n) > 0)
    ensures forall n :: n in CountMap(users) ==> CountMap(users)[n] == Occurrences(users, n)
  {
    if users != [] {
      CountMapIsOccurrences(users[..|users| - 1]);
    }
  }

  /** The sum of a map's counts. */
  ghost function Total(m: map<string, nat>): nat
    decreases |m.Keys|
  {
    if m.Keys == {} then 0
    else
      var k :| k in m;
      assert (m - {k}).Keys < m.Keys;
      m[k] + Total(m - {k})
  }

  /** Total does not depend on which key it takes first. */
  lemma {:induction false} TotalWithout(m: map<string, nat>, k: string)
    requires k in m
    ensures Total(m) == m[k] + Total(m - {k})
    decreases |m.Keys|
  {
    var j :| j in m && Total(m) == m[j] + Total(m - {j});
    if j != k {
      assert (m - {j}).Keys < m.Keys && (m - {k}).Keys < m.Keys;
      TotalWithout(m - {j}, k);
      TotalWithout(m - {k}, j);
      RemovalsCommute(m, j, k);
    }
  }

  lemma RemovalsCommute(m: map<string, nat>, j: string, k: string)
    ensures m - {j} - {k} == m - {k} - {j}
  {
    assert (m - {j} - {k}).Keys == (m - {k} - {j}).Keys;
  }

  /** CountUsers counts every user exactly once: the counts add up to the number of users. */
  lemma {:induction false} CountsAddUp(users: seq<XmlUser>)
    ensures Total(CountMap(users)) == |users|
  {
    if users != [] {
      var p := users[..|users| - 1];
      var n := users[|users| - 1].username;
      var m := CountMap(p);
      CountsAddUp(p);
      var m' := CountMap(users);
      TotalWithout(m', n);
      assert m' - {n} == m - {n};
      if n in m {
        TotalWithout(m, n);
      } else {
        assert m - {n} == m;
      }
    }
  }

  /**
   * The map has at most one key per user, and exactly one per user iff no
   * user name repeats: the test WriteUsers uses to find duplicates.
   */
  lemma {:induction false} CountMapSize(users: seq<XmlUser>)
    ensures |CountMap(users).Keys| <= |users|
    ensures |CountMap(users).Keys| == |users| <==> Distinct(Usernames(users))
  {
    if users != [] {
      var p := users[..|users| - 1];
      var n := users[|users| - 1].username;
      var m := CountMap(p);
      CountMapSize(p);
      CountMapIsOccurrences(p);
      OccurrencesNamed(p, n);
      UsernamesSnoc(users);
      if n in m {
        assert CountMap(users).Keys == m.Keys;
        var j :| 0 <= j < |p| && Usernames(p)[j] == n;
        assert Usernames(users)[j] == Usernames(users)[|users| - 1];
      } else {
        assert CountMap(users).Keys == m.Keys + {n};
        assert Distinct(Usernames(users)) <==> Distinct(Usernames(p));
      }
    }
  }

  /** Two users with the same name give that name at least two occurrences. */
  lemma {:induction false} RepeatedOccurrences(users: seq<XmlUser>, i: int, j: int)
    requires 0 <= i < j < |users| && users[i].username == users[j].username
    ensures Occurrences(users, users[i].username) >= 2
  {
    var p := users[..|users| - 1];
    if j == |users| - 1 {
      OccurrencesNamed(p, users[i].username);
      assert Usernames(p)[i] == users[i].username;
    } else {
      RepeatedOccurrences(p, i, j);
    }
  }

  /** CountUsers. */
  method CountUsers(users: seq<XmlUser>) returns (counts: map<string, nat>)
    ensures counts == CountMap(users)
  {
    counts := map[];
    for i := 0 to |users|
      invariant counts == CountMap(users[..i])
    {
      var n := users[i].username;
      assert users[..i + 1][..i] == users[..i];
      if n in counts {
        counts := counts[n := counts[n] + 1];
      } else {
        counts := counts[n := 1];
      }
    }
    assert users[..|users|] == users;
  }

  /** A list of the repeated user names, each once, in some order. */
  ghost predicate DuplicateList(dups: seq<string>, users: seq<XmlUser>)
  {
    Distinct(dups) && forall x :: x in dups <==> Occurrences(users, x) > 1
  }

  /** With a repeated user name the duplicate list is never empty. */
  lemma DuplicateListNonEmpty(dups: seq<string>, users: seq<XmlUser>)
    requires DuplicateList(dups, users) && !Distinct(Usernames(users))
    ensures dups != []
  {
    var i, j :| 0 <= i < j < |users| && Usernames(users)[i] == Usernames(users)[j];
    RepeatedOccurrences(users, i, j);
    assert users[i].username in dups;
  }

  /** The keys, in the order `keys` visits them, that count more than one user. */
  function DuplicateNames(counts: map<string, nat>, keys: seq<string>): seq<string>
  {
    if keys == [] then []
    else
      var rest := DuplicateNames(counts, keys[..|keys| - 1]);
      var k := keys[|keys| - 1];
      if k in counts && counts[k] > 1 then rest + [k] else rest
  }

  lemma {:induction false} DuplicateNamesMembers(counts: map<string, nat>, keys: seq<string>)
    ensures forall x :: x in DuplicateNames(counts, keys) <==> x in keys && x in counts && counts[x] > 1
  {
    if keys != [] {
      DuplicateNamesMembers(counts, keys[..|keys| - 1]);
      assert keys == keys[..|keys| - 1] + [keys[|keys| - 1]];
    }
  }

  lemma {:induction false} DuplicateNamesDistinct(counts: map<string, nat>, keys: seq<string>)
    requires Distinct(keys)
    ensures Distinct(DuplicateNames(counts, keys))
  {
    if keys != [] {
      var p := keys[..|keys| - 1];
      DuplicateNamesDistinct(counts, p);
      DuplicateNamesMembers(counts, p);
      assert keys[|keys| - 1] !in p;
    }
  }

  /**
   * Whatever order the map is ranged over, the names reported are exactly
   * the repeated user names, each once.
   */
  lemma DuplicateNamesAreRepeats(users: seq<XmlUser>, keys: seq<string>)
    requires Lists(keys, CountMap(users).Keys)
    ensures DuplicateList(DuplicateNames(CountMap(users), keys), users)
  {
    DuplicateNamesMembers(CountMap(users), keys);
    DuplicateNamesDistinct(CountMap(users), keys);
    CountMapIsOccurrences(users);
  }

  /** The duplicate scan of WriteUsers: a range over the count map, in the runtime's order. */
  method Duplicates(counts: map<string, nat>, order: Enumeration) returns (dups: seq<string>)
    ensures dups == DuplicateNames(counts, order(counts.Keys))
  {
    var keys := order(counts.Keys);
    dups := [];
    for i := 0 to |keys|
      invariant dups == DuplicateNames(counts, keys[..i])
    {
      assert keys[..i + 1][..i] == keys[..i];
      if keys[i] in counts && counts[keys[i]] > 1 {
        dups := dups + [keys[i]];
      }
    }
    assert keys[..|keys|] == keys;
  }

  /** What a users file holds: a list of users, or XML that does not decode. */
  datatype Stored = UsersFile(users: seq<XmlUser>) | Unparsable(error: string)

  function InvalidFileName(fname: string): string
  {
    "invalid file name: " + Quote(fname)
  }

  /**
   * ReadUsers: "" and "-" are refused before anything is opened; a missing
   * file and XML that does not decode are errors.
   */
  function ReadUsers(files: map<string, Stored>, fname: string): (r: Result<seq<XmlUser>>)
    ensures fname == "" || fname == "-" ==> r == Err(InvalidFileName(fname))
    ensures r.Ok? <==> fname != "" && fname != "-" && fname in files && files[fname].UsersFile?
    ensures r.Ok? ==> r.value == files[fname].users
  {
    if fname == "" || fname == "-" then Err(InvalidFileName(fname))
    else if fname !in files then Err("open " + fname + ": no such file or directory")
    else match files[fname]
      case UsersFile(users) => Ok(users)
      case Unparsable(e) => Err(e)
  }

  /** The file's users whose user name is not among the new users, in file order. */
  function Unnamed(orig: seq<XmlUser>, newUsers: seq<XmlUser>): seq<XmlUser>
  {
    if orig == [] then []
    else
      var rest := Unnamed(orig[..|orig| - 1], newUsers);
      var u := orig[|orig| - 1];
      if u.username in Usernames(newUsers) then rest else rest + [u]
  }

  /**
   * What AppendUsersFromFile returns: the new users alone when the file
   * cannot be read, else the file's users not named among the new ones,
   * followed by the new users.
   */
  function Merged(read: Result<seq<XmlUser>>, newUsers: seq<XmlUser>): seq<XmlUser>
  {
    if read.Err? then newUsers else Unnamed(read.value, newUsers) + newUsers
  }

  /** A file user stays iff no new user has its name; the check is by user name, not ID. */
  lemma {:induction false} UnnamedMembers(orig: seq<XmlUser>, newUsers: seq<XmlUser>)
    ensures forall u :: u in Unnamed(orig, newUsers) <==> u in orig && u.username !in Usernames(newUsers)
  {
    if orig != [] {
      UnnamedMembers(orig[..|orig| - 1], newUsers);
      assert orig == orig[..|orig| - 1] + [orig[|orig| - 1]];
    }
  }

  lemma {:induction false} UnnamedAppend(a: seq<XmlUser>, b: seq<XmlUser>, newUsers: seq<XmlUser>)
    ensures Unnamed(a + b, newUsers) == Unnamed(a, newUsers) + Unnamed(b, newUsers)
  {
    if b != [] {
      assert (a + b)[..|a + b| - 1] == a + b[..|b| - 1];
      UnnamedAppend(a, b[..|b| - 1], newUsers);
    } else {
      assert a + b == a;
    }
  }

  /** The users kept from the file, kept again, stay the same. */
  lemma {:induction false} UnnamedIdempotent(orig: seq<XmlUser>, newUsers: seq<XmlUser>)
    ensures Unnamed(Unnamed(orig, newUsers), newUsers) == Unnamed(orig, newUsers)
  {
    if orig != [] {
      var p := orig[..|orig| - 1];
      var u := orig[|orig| - 1];
      UnnamedIdempotent(p, newUsers);
      if u.username !in Usernames(newUsers) {
        UnnamedAppend(Unnamed(p, newUsers), [u], newUsers);
        assert Unnamed([u], newUsers) == [u] by {
          assert [u][..0] == [];
        }
      }
    }
  }

  lemma {:induction false} UnnamedOfSelf(newUsers: seq<XmlUser>, part: seq<XmlUser>)
    requires forall u :: u in part ==> u in newUsers
    ensures Unnamed(part, newUsers) == []
  {
    if part != [] {
      var u := part[|part| - 1];
      assert u in part;
      var k :| 0 <= k < |newUsers| && newUsers[k] == u;
      assert Usernames(newUsers)[k] == u.username;
      UnnamedOfSelf(newUsers, part[..|part| - 1]);
    }
  }

  /** Merging the same new users into the merged file changes nothing more. */
  lemma MergedIdempotent(orig: seq<XmlUser>, newUsers: seq<XmlUser>)
    ensures Merged(Ok(Merged(Ok(orig), newUsers)), newUsers) == Merged(Ok(orig), newUsers)
  {
    UnnamedAppend(Unnamed(orig, newUsers), newUsers, newUsers);
    UnnamedIdempotent(orig, newUsers);
    UnnamedOfSelf(newUsers, newUsers);
  }

  /** A merge of duplicate-free lists is duplicate-free: no name is written twice. */
  lemma MergedDistinct(orig: seq<XmlUser>, newUsers: seq<XmlUser>)
    requires Distinct(Usernames(orig)) && Distinct(Usernames(newUsers))
    ensures Distinct(Usernames(Merged(Ok(orig), newUsers)))
  {
    UnnamedDistinct(orig, newUsers);
    var kept := Unnamed(orig, newUsers);
    var m := kept + newUsers;
    UnnamedMembers(orig, newUsers);
    forall i, j | 0 <= i < j < |m|
      ensures Usernames(m)[i] != Usernames(m)[j]
    {
      if j < |kept| {
        assert Usernames(kept)[i] != Usernames(kept)[j];
      } else if i >= |kept| {
        assert Usernames(newUsers)[i - |kept|] != Usernames(newUsers)[j - |kept|];
      } else {
        assert kept[i] in kept;
        assert Usernames(newUsers)[j - |kept|] == m[j].username;
      }
    }
  }

  lemma {:induction false} UnnamedDistinct(orig: seq<XmlUser>, newUsers: seq<XmlUser>)
    requires Distinct(Usernames(orig))
    ensures Distinct(Usernames(Unnamed(orig, newUsers)))
  {
    if orig != [] {
      var p := orig[..|orig| - 1];
      var u := orig[|orig| - 1];
      DistinctInit(orig);
      UnnamedDistinct(p, newUsers);
      if u.username !in Usernames(newUsers) {
        var r := Unnamed(p, newUsers);
        LastNameIsNew(orig, newUsers, p, u);
        DistinctSnoc(r, u);
      }
    }
  }

  /** Dropping the last user keeps the user names distinct. */
  lemma DistinctInit(users: seq<XmlUser>)
    requires users != [] && Distinct(Usernames(users))
    ensures Distinct(Usernames(users[..|users| - 1]))
  {
    var p := users[..|users| - 1];
    forall i, j | 0 <= i < j < |p|
      ensures Usernames(p)[i] != Usernames(p)[j]
    {
      assert Usernames(users)[i] != Usernames(users)[j];
    }
  }

  /** The last user's name is not among the names kept from the users before it. */
  lemma LastNameIsNew(orig: seq<XmlUser>, newUsers: seq<XmlUser>, p: seq<XmlUser>, u: XmlUser)
    requires orig != [] && Distinct(Usernames(orig))
    requires p == orig[..|orig| - 1] && u == orig[|orig| - 1]
    ensures forall i :: 0 <= i < |Unnamed(p, newUsers)| ==> Unnamed(p, newUsers)[i].username != u.username
  {
    var r := Unnamed(p, newUsers);
    UnnamedMembers(p, newUsers);
    forall i | 0 <= i < |r|
      ensures r[i].username != u.username
    {
      assert r[i] in p;
      var k :| 0 <= k < |p| && p[k] == r[i];
      assert Usernames(orig)[k] != Usernames(orig)[|orig| - 1];
    }
  }

  /** Appending a user with a new name keeps the user names distinct. */
  lemma DistinctSnoc(r: seq<XmlUser>, u: XmlUser)
    requires Distinct(Usernames(r))
    requires forall i :: 0 <= i < |r| ==> r[i].username != u.username
    ensures Distinct(Usernames(r + [u]))
  {
    UsernamesSnoc(r + [u]);
    assert (r + [u])[..|r|] == r;
  }

  /** What WriteUsers can change: the users files, and the documents written to standard output. */
  datatype Disk = Disk(files: map<string, Stored>, stdout: seq<seq<XmlUser>>)

  function DuplicatesError(dups: seq<string>): string
  {
    "WriteUsers: duplicate users detected: " + QuoteAll(dups)
  }

  /**
   * WriteUsers as a value: the error and the disk afterwards. An empty name
   * and then a repeated user name are refused before any file is read; "-"
   * writes the users to standard output; any other name is replaced by the
   * merge of its users and the new ones, unless writing there fails.
   */
  function Written(disk: Disk, failures: map<string, string>, fname: string,
                   glUsers: seq<GitlabUtil.User>, order: Enumeration): (r: (Option<string>, Disk))
    ensures fname == "" ==> r.0 == Some(InvalidFileName(fname))
    ensures r.0.None? <==> fname != "" && Distinct(Usernames(Converted(glUsers))) && fname !in failures
    ensures fname != "" && Distinct(Usernames(Converted(glUsers))) && fname in failures ==>
              r.0 == Some(failures[fname])
    ensures r.0.Some? ==> r.1 == disk
    ensures r.0.None? && fname == "-" ==> r.1 == disk.(stdout := disk.stdout + [Converted(glUsers)])
    ensures r.0.None? && fname != "-" ==>
              r.1 == disk.(files := disk.files[fname := UsersFile(Merged(ReadUsers(disk.files, fname), Converted(glUsers)))])
  {
    if fname == "" then (Some(InvalidFileName(fname)), disk)
    else
      var users := Converted(glUsers);
      var counts := CountMap(users);
      CountMapSize(users);
      if |counts| < |users| then (Some(DuplicatesError(DuplicateNames(counts, order(counts.Keys)))), disk)
      else if fname in failures then (Some(failures[fname]), disk)
      else if fname == "-" then (None, disk.(stdout := disk.stdout + [users]))
      else (None, disk.(files := disk.files[fname := UsersFile(Merged(ReadUsers(disk.files, fname), users))]))
  }

  /**
   * A repeated user name is reported with the list of all repeated names,
   * each once, whatever the map order.
   */
  lemma WrittenReportsDuplicates(disk: Disk, failures: map<string, string>, fname: string,
                                 glUsers: seq<GitlabUtil.User>, order: Enumeration)
    requires Enumerates(order)
    requires fname != "" && !Distinct(Usernames(Converted(glUsers)))
    ensures exists dups :: DuplicateList(dups, Converted(glUsers)) && dups != []
              && Written(disk, failures, fname, glUsers, order).0 == Some(DuplicatesError(dups))
  {
    var users := Converted(glUsers);
    var counts := CountMap(users);
    CountMapSize(users);
    var dups := DuplicateNames(counts, order(counts.Keys));
    assert Lists(order(counts.Keys), counts.Keys);
    DuplicateNamesAreRepeats(users, order(counts.Keys));
    DuplicateListNonEmpty(dups, users);
  }

  /** The file system the users file lives in. */
  class FileSystem {
    var files: map<string, Stored>
    /** The documents written to standard output, in order. */
    var stdout: seq<seq<XmlUser>>
    /** Destinations where creating the temporary file, encoding or renaming fails, with the error. */
    const failures: map<string, string>

    constructor (files: map<string, Stored>, failures: map<string, string>)
      ensures this.files == files && this.failures == failures && stdout == []
    {
      this.files := files;
      this.failures := failures;
      stdout := [];
    }

    /** AppendUsersFromFile: never fails; an unreadable file merges nothing. */
    method AppendUsersFromFile(fname: string, newUsers: seq<XmlUser>) returns (result: seq<XmlUser>, err: Option<string>)
      ensures result == Merged(ReadUsers(files, fname), newUsers)
      ensures err == None
    {
      err := None;
      var read := ReadUsers(files, fname);
      if read.Err? {
        result := newUsers;
        return;
      }
      var orig := read.value;
      var counts := CountUsers(newUsers);
      CountMapIsOccurrences(newUsers);
      result := [];
      for i := 0 to |orig|
        invariant result == Unnamed(orig[..i], newUsers)
      {
        var u := orig[i];
        OccurrencesNamed(newUsers, u.username);
        assert orig[..i + 1][..i] == orig[..i];
        if u.username in counts && counts[u.username] > 0 {
          continue;
        }
        result := result + [u];
      }
      assert orig[..|orig|] == orig;
      result := result + newUsers;
    }

    function Contents(): Disk
      reads this
    {
      Disk(files, stdout)
    }

    /** WriteUsers: the guards, then the merge and the write (see Written). */
    method WriteUsers(fname: string, glUsers: seq<GitlabUtil.User>, order: Enumeration) returns (err: Option<string>)
      modifies this
      ensures (err, Contents()) == Written(old(Contents()), failures, fname, glUsers, order)
    {
      if fname == "" {
        return Some(InvalidFileName(fname));
      }
      var xmlUsers := FromGitlabUsers(glUsers);
      var counts := CountUsers(xmlUsers);
      CountMapSize(xmlUsers);
      if |counts| < |xmlUsers| {
        var dups := Duplicates(counts, order);
        return Some(DuplicatesError(dups));
      }
      if fname != "-" {
        xmlUsers, err := AppendUsersFromFile(fname, xmlUsers);
      }
      if fname in failures {
        return Some(failures[fname]);
      }
      if fname == "-" {
        stdout := stdout + [xmlUsers];
      } else {
        files := files[fname := UsersFile(xmlUsers)];
      }
      err := None;
    }
  }

  /** What WriteUsers leaves in a file reads back as the merge it computed. */
  lemma WrittenReadsBack(files: map<string, Stored>, fname: string, users: seq<XmlUser>)
    requires fname != "" && fname != "-"
    ensures ReadUsers(files[fname := UsersFile(users)], fname) == Ok(users)
  {
  }
}
