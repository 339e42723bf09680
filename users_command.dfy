// "users": a parent command over UsersOptions whose one subcommand is list.
// UsersOptions.Initialize registers no flag.

module UsersCommand {
  import opened Flags
  import opened Environment
  import opened Command
  import UsersList

  /** The option field of the child: UsersListOpts. */
  function ListOpts(prefix: string): string { prefix + ".UsersListOpts" }

  /** NewUsersCommand: an empty parent, then addSubcmds. */
  method NewUsersCommand(name: string, store: Store, prefix: string, client: Client) returns (cmd: ParentCommand)
    requires Serves(client)
    modifies store
    ensures fresh(cmd) && fresh(cmd.flags) && fresh(cmd.Repr)
    ensures cmd.name == name && cmd.store == store && cmd.Valid() && cmd.flags.actual == {}
    ensures cmd.subcmds.Keys == {"list"}
    ensures cmd.subcmds["list"].UsersListRunner?
            && cmd.subcmds["list"].usersList.prefix == ListOpts(prefix)
            && cmd.subcmds["list"].usersList.client == client
    ensures store.fields == UsersList.Registered(old(store.fields), ListOpts(prefix))
  {
    cmd := new ParentCommand(name, store);
    var list := new UsersList.UsersListCommand("list", store, ListOpts(prefix), client);
    cmd.Add("list", UsersListRunner(list));
    assert cmd.subcmds == map["list" := UsersListRunner(list)];
  }
}
