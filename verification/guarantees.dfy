/**
 What an operator can rely on when running `grunt` with no arguments, read
 off the account of `DefaultRun`: the order of the steps, the deploy gate,
 the external commands, the menus, and what the production question does
 (nothing).
 */
module Guarantees {
  import opened JsText
  import opened LexOrder
  import opened TagList
  import opened Manifest
  import opened Prompts
  import opened Workflow
  import opened DefaultRun

  /** Tasks run in the order of `DefaultTrace`, each at most once: the task
      run `i`-th is the one at position `i`. */
  lemma RunOrder(env: Env)
    ensures var trace := RunDefault(env).state.trace;
      && 4 <= |trace| <= 17
      && forall i :: 0 <= i < |trace| ==> Position(trace[i]) == i
  {
    DefaultRunFollowsTrace(env);
    var end := DefaultEnd(env);
    FirstTasksOfDefaultTrace(end.0);
    FirstTasksIndexes(end.0);
    PositionIndexes();
  }

  /** `clean` runs only in a run that completes: a failed or aborted deploy
      leaves the build directory in place. */
  lemma CleanOnlyOnCompletion(env: Env)
    ensures var o := RunDefault(env);
      Clean in o.state.trace <==> o.halt == Completed
  {
    DefaultRunFollowsTrace(env);
    var end := DefaultEnd(env);
    FirstTasksOfDefaultTrace(end.0);
    FirstTasksMembership(end.0, Clean);
  }

  /** The deploy gate: the live rsync runs exactly when every earlier step
      worked and the operator confirmed the deployment, and the run is
      aborted with "Deployment aborted" exactly when every earlier step
      worked and the operator declined. */
  lemma LiveRunIsGated(env: Env)
    ensures var o := RunDefault(env);
      && (RsyncLive in o.state.trace <==> ReachesConfirmation(env) && env.answers.confirmDeploy)
      && (o.halt.Aborted? <==> ReachesConfirmation(env) && !env.answers.confirmDeploy)
      && (o.halt.Aborted? ==> o.halt.message == DeploymentAborted)
  {
    DefaultRunFollowsTrace(env);
    var end := DefaultEnd(env);
    FirstTasksOfDefaultTrace(end.0);
    FirstTasksMembership(end.0, RsyncLive);
  }

  /** The external commands a default run invokes, by how far it got. The
      live rsync is invoked only after the operator confirmed, and with the
      very options of the dry run before it. */
  lemma DefaultRunCommands(env: Env)
    ensures var o := RunDefault(env); var end := DefaultEnd(env);
      var exported := [ListTags, Export(env.repositoryUrl, Some(env.answers.tag))];
      && (end.0 == 4 ==> o.state.commands == [ListTags])
      && (end.0 == 7 || end.0 == 9 ==> o.state.commands == exported)
      && (end.0 >= 11 ==> ServerCommandsRun(env, end.0, o.state.commands))
  {
    DefaultRunFollowsTrace(env);
    CommandsBeforeServer(env);
    var end := DefaultEnd(env);
    if end.0 >= 11 {
      CommandsWithServer(env);
    }
  }

  /** The commands of a run that got past `deploy.configure` (`n` tasks):
      the listing, the export, the version lookup and the replacement, then
      the dry rsync and the live rsync as far as the run got, all reading
      the selected server's configuration. */
  predicate ServerCommandsRun(env: Env, n: nat, commands: seq<Command>) {
    var server := Lookup(env.deployment.servers, env.answers.server);
    server.Some? &&
    var target := RsyncTarget(env.deployment, server.value);
    var replaced := [ListTags, Export(env.repositoryUrl, Some(env.answers.tag)),
                     Describe(Some(env.answers.tag)), Replace(Configured(server.value.replaceConfigs))];
    && (n == 11 ==> commands == replaced)
    && (n == 13 || n == 15 ==> commands == replaced + [Sync(target, true)])
    && (n >= 16 ==> commands == replaced + [Sync(target, true), Sync(target, false)])
  }

  /** A listing the callback cannot parse stops the run before any question
      is asked and before anything is exported. */
  lemma UnparsableListingStopsRun(env: Env)
    requires !WellFormedOutput(env.lsRemoteOutput)
    ensures var o := RunDefault(env);
      && o.halt == Failed(ListRemoteTags, TypeError)
      && PromptConfigure !in o.state.trace
      && o.state.commands == [ListTags]
  {
    DefaultRunFollowsTrace(env);
    FirstTasksOfDefaultTrace(4);
    FirstTasksMembership(4, PromptConfigure);
    CommandsBeforeServer(env);
  }

  /** The menus the configure questions offer in a default run: every
      server name in manifest order, "test" preselected when there is such
      a server, and the two branches followed by at most ten tags, greatest
      first. */
  lemma DefaultRunMenus(env: Env)
    requires WellFormedOutput(env.lsRemoteOutput)
    ensures var o := RunDefault(env); var servers := env.deployment.servers;
      && o.state.menus.Some?
      && var m := o.state.menus.value;
      && |m.servers| == |servers|
      && (forall i :: 0 <= i < |servers| ==> m.servers[i] == servers[i].name)
      && (m.defaultServer == Test <==> Test in m.servers)
      && (m.defaultServer != Test ==> m.defaultServer == [])
      && 2 <= |m.tags| <= 2 + MaxTags
      && m.tags[..2] == [Master, Develop]
      && m.tags[2..] == CleanTags(env.lsRemoteOutput)
      && Descending(m.tags[2..])
  {
    DefaultRunFollowsTrace(env);
    ServerChoicesAreNames(env.deployment.servers);
    DefaultServerIsOffered(env.deployment.servers);
    TagChoicesAfterListing(env.lsRemoteOutput);
  }

  /** The production answer is recorded, and only for "prod", but nothing
      reads it: changing it changes neither how the run ends, nor the tasks
      it runs, nor the commands it invokes. */
  lemma ProductionAnswerIgnored(env: Env, answer: bool)
    ensures var o := RunDefault(env);
      var o2 := RunDefault(env.(answers := env.answers.(confirmProduction := answer)));
      && o2.halt == o.halt
      && o2.state.trace == o.state.trace
      && o2.state.commands == o.state.commands
    ensures WellFormedOutput(env.lsRemoteOutput) ==>
      (RunDefault(env).state.confirmProduction.Some? <==> AsksProductionConfirmation(env.answers.server))
  {
    var env2 := env.(answers := env.answers.(confirmProduction := answer));
    DefaultRunFollowsTrace(env);
    DefaultRunFollowsTrace(env2);
    assert DefaultEnd(env2) == DefaultEnd(env);
    CommandsIgnoreProduction(env, env2, DefaultEnd(env).0);
  }

  lemma {:induction false} CommandsIgnoreProduction(env: Env, env2: Env, n: nat)
    requires env2 == env.(answers := env.answers.(confirmProduction := env2.answers.confirmProduction))
    ensures DefaultCommands(env2, n) == DefaultCommands(env, n)
  {
    if n > 0 {
      CommandsIgnoreProduction(env, env2, n - 1);
      assert CommandsAt(env2, n - 1) == CommandsAt(env, n - 1);
    }
  }

  /** A default run never trips a `grunt.task.requires` check: `init`,
      `configure` and `prepare` each succeed before the task that requires
      them. */
  lemma DefaultRunMeetsPrerequisites(env: Env)
    ensures var h := RunDefault(env).halt;
      h.Failed? ==> !h.reason.PrerequisiteMissing?
  {
    DefaultRunFollowsTrace(env);
  }

  /** Run on its own, a task that requires another fails at once, having
      invoked nothing. */
  lemma TaskAloneFails(t: Task, env: Env)
    requires Prerequisite(t).Some?
    ensures var o := Run([t], Start, env);
      && o.halt == Failed(t, PrerequisiteMissing(Prerequisite(t).value))
      && o.state.trace == [t]
      && o.state.commands == []
  {
  }
}
