// "approval-rules": a parent command over ProjectsApprovalRulesOptions whose
// subcommands are list and update. Its Initialize registers no flag.

module ProjectsApprovalRulesCommand {
  import opened Flags
  import opened Environment
  import opened Command
  import ProjectsList
  import ProjectsApprovalRulesList
  import ProjectsApprovalRulesUpdate

  /** The option fields of the children: ProjectsApprovalRulesListOpts and ProjectsApprovalRulesUpdateOpts. */
  function ListOpts(prefix: string): string { prefix + ".ProjectsApprovalRulesListOpts" }
  function UpdateOpts(prefix: string): string { prefix + ".ProjectsApprovalRulesUpdateOpts" }

  /** The options after NewProjectsApprovalRulesCommand: the Initialize of list, then of update. */
  function Registered(fields: Fields, prefix: string): Fields
  {
    ProjectsApprovalRulesUpdate.Registered(ProjectsList.Registered(fields, ListOpts(prefix)), UpdateOpts(prefix))
  }

  /** NewProjectsApprovalRulesCommand: an empty parent, then addSubcmds. */
  method NewProjectsApprovalRulesCommand(name: string, store: Store, prefix: string, client: Client)
    returns (cmd: ParentCommand)
    requires Serves(client)
    modifies store
    ensures fresh(cmd) && fresh(cmd.flags) && fresh(cmd.Repr)
    ensures cmd.name == name && cmd.store == store && cmd.Valid() && cmd.flags.actual == {}
    ensures cmd.subcmds.Keys == {"list", "update"}
    ensures cmd.subcmds["list"].RulesListRunner?
            && cmd.subcmds["list"].rulesList.prefix == ListOpts(prefix)
            && cmd.subcmds["list"].rulesList.client == client
    ensures cmd.subcmds["update"].RulesUpdateRunner?
            && cmd.subcmds["update"].rulesUpdate.prefix == UpdateOpts(prefix)
            && cmd.subcmds["update"].rulesUpdate.client == client
    ensures store.fields == Registered(old(store.fields), prefix)
  {
    cmd := new ParentCommand(name, store);
    var list := new ProjectsApprovalRulesList.ProjectsApprovalRulesListCommand("list", store, ListOpts(prefix), client);
    cmd.Add("list", RulesListRunner(list));
    var update := new ProjectsApprovalRulesUpdate.ProjectsApprovalRulesUpdateCommand("update", store, UpdateOpts(prefix), client);
    cmd.Add("update", RulesUpdateRunner(update));
    assert cmd.subcmds == map["list" := RulesListRunner(list), "update" := RulesUpdateRunner(update)];
    assert cmd.Repr == {list.flags, update.flags};
  }
}
