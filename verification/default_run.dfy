/**
 What `grunt` with no arguments does, stated independently of the task
 queue: the fixed order of tasks it runs, where that order is cut short
 (the first failing step or the declined deploy confirmation), and the
 external commands it invokes. The theorem `DefaultRunFollowsTrace` proves
 the queue machine of `Workflow` agrees with this account on every input.
 */
module DefaultRun {
  import opened JsText
  import opened TagList
  import opened Manifest
  import opened Prompts
  import opened Workflow

  /** The tasks of a default run that nothing stops, in order. */
  const DefaultTrace: seq<Task> :=
    [Default, Init, Configure, ListRemoteTags, PromptConfigure, Prepare, GitExport,
     Deploy, DeployConfigure, GitDescribe, RegexReplace, DeployDry, RsyncDry,
     PromptConfirmDeploy, DeployLive, RsyncLive, Clean]

  /** The task at position `i` of `DefaultTrace`. The order is also written
      out here, in `Position` and in `Pending`, each in the form the proofs
      use it; `PositionIndexes` and `PendingStep` prove the tables agree. */
  function TaskAt(i: nat): Task
    requires i < 17
  {
    if i == 0 then Default
    else if i == 1 then Init
    else if i == 2 then Configure
    else if i == 3 then ListRemoteTags
    else if i == 4 then PromptConfigure
    else if i == 5 then Prepare
    else if i == 6 then GitExport
    else if i == 7 then Deploy
    else if i == 8 then DeployConfigure
    else if i == 9 then GitDescribe
    else if i == 10 then RegexReplace
    else if i == 11 then DeployDry
    else if i == 12 then RsyncDry
    else if i == 13 then PromptConfirmDeploy
    else if i == 14 then DeployLive
    else if i == 15 then RsyncLive
    else Clean
  }

  /** Where each task stands in `DefaultTrace`. */
  function Position(t: Task): nat {
    match t
    case Default => 0
    case Init => 1
    case Configure => 2
    case ListRemoteTags => 3
    case PromptConfigure => 4
    case Prepare => 5
    case GitExport => 6
    case Deploy => 7
    case DeployConfigure => 8
    case GitDescribe => 9
    case RegexReplace => 10
    case DeployDry => 11
    case RsyncDry => 12
    case PromptConfirmDeploy => 13
    case DeployLive => 14
    case RsyncLive => 15
    case Clean => 16
  }

  /** Every task occurs exactly once in a default run: `Position` and
      `TaskAt` are inverse, and `DefaultTrace` lists `TaskAt` in order. */
  lemma PositionIndexes()
    ensures forall t :: Position(t) < 17 && TaskAt(Position(t)) == t
    ensures forall i :: 0 <= i < 17 ==> Position(TaskAt(i)) == i
    ensures |DefaultTrace| == 17 && forall i :: 0 <= i < 17 ==> DefaultTrace[i] == TaskAt(i)
  {
    forall i | 0 <= i < 17 ensures DefaultTrace[i] == TaskAt(i) {
      // The empty branches only split the seventeen cases into small groups
      // the solver settles one at a time.
      if i < 9 {
        if i < 3 {
        } else if i < 6 {
        } else {
        }
      } else {
        if i < 12 {
        } else if i < 15 {
        } else {
        }
      }
    }
  }

  /** The first `n` tasks of a default run. */
  function FirstTasks(n: nat): seq<Task>
    requires n <= 17
  {
    if n == 0 then [] else FirstTasks(n - 1) + [TaskAt(n - 1)]
  }

  lemma {:induction false} FirstTasksOfDefaultTrace(n: nat)
    requires n <= 17
    ensures FirstTasks(n) == DefaultTrace[..n]
  {
    if n > 0 {
      FirstTasksOfDefaultTrace(n - 1);
      PositionIndexes();
      assert DefaultTrace[..n] == DefaultTrace[..n - 1] + [DefaultTrace[n - 1]];
    }
  }

  /** Every step before the deploy confirmation succeeds: the tag listing
      can be parsed, the export works, the selected server is in the
      manifest, and the replacement and the dry run work. */
  predicate ReachesConfirmation(env: Env) {
    && WellFormedOutput(env.lsRemoteOutput)
    && GitExport !in env.failing
    && Lookup(env.deployment.servers, env.answers.server).Some?
    && RegexReplace !in env.failing
    && RsyncDry !in env.failing
  }

  /** How a default run ends, read off the inputs in workflow order: how
      many tasks of `DefaultTrace` it runs, and how it halts. */
  function DefaultEnd(env: Env): (end: (nat, Halt))
    ensures 4 <= end.0 <= 17
    ensures end.0 == 17 <==> end.1 == Completed
    ensures end.0 > 4 <==> WellFormedOutput(env.lsRemoteOutput)
    ensures end.0 > 7 <==> end.0 > 4 && GitExport !in env.failing
    ensures end.0 > 9 <==> end.0 > 7 && Lookup(env.deployment.servers, env.answers.server).Some?
    ensures end.0 > 11 <==> end.0 > 9 && RegexReplace !in env.failing
    ensures end.0 > 13 <==> end.0 > 11 && RsyncDry !in env.failing
    ensures end.0 > 15 <==> end.0 > 13 && env.answers.confirmDeploy
    ensures end.0 > 16 <==> end.0 > 15 && RsyncLive !in env.failing
    ensures end.0 in {4, 7, 9, 11, 13, 15, 16, 17}
  {
    if !WellFormedOutput(env.lsRemoteOutput) then (4, Failed(ListRemoteTags, TypeError))
    else if GitExport in env.failing then (7, Failed(GitExport, CommandFailed))
    else if Lookup(env.deployment.servers, env.answers.server).None? then (9, Failed(DeployConfigure, TypeError))
    else if RegexReplace in env.failing then (11, Failed(RegexReplace, CommandFailed))
    else if RsyncDry in env.failing then (13, Failed(RsyncDry, CommandFailed))
    else if !env.answers.confirmDeploy then (15, Aborted(DeploymentAborted))
    else if RsyncLive in env.failing then (16, Failed(RsyncLive, CommandFailed))
    else (17, Completed)
  }

  /** The external command the task at position `k` of `DefaultTrace`
      invokes in a default run, if any. */
  function CommandsAt(env: Env, k: nat): seq<Command> {
    if k == 3 then [ListTags]
    else if k == 6 then [Export(env.repositoryUrl, Some(env.answers.tag))]
    else if k == 9 then [Describe(Some(env.answers.tag))]
    else if k == 10 || k == 12 || k == 15 then ServerCommands(env, k)
    else []
  }

  /** The commands of the replacement and the two rsync runs, which read
      the selected server's configuration. */
  function ServerCommands(env: Env, k: nat): seq<Command> {
    var server := Lookup(env.deployment.servers, env.answers.server);
    if server.None? then []
    else if k == 10 then [Replace(Configured(server.value.replaceConfigs))]
    else if k == 12 then [Sync(RsyncTarget(env.deployment, server.value), true)]
    else [Sync(RsyncTarget(env.deployment, server.value), false)]
  }

  /** The commands the first `n` tasks of a default run invoke. */
  function DefaultCommands(env: Env, n: nat): seq<Command> {
    if n == 0 then [] else DefaultCommands(env, n - 1) + CommandsAt(env, n - 1)
  }

  /** The menus the configure questions offer in a default run. */
  function DefaultMenus(env: Env): Menus
    requires WellFormedOutput(env.lsRemoteOutput)
  {
    OfferedMenus(env, Some(CleanTags(env.lsRemoteOutput)))
  }

  /** The menus the configure questions offer for a stored tag list. */
  function OfferedMenus(env: Env, stored: Option<seq<JsString>>): Menus {
    Menus(ServerChoices(env.deployment.servers), DefaultServer(env.deployment.servers), TagChoices(stored))
  }

  /** What the production question records. */
  function ProductionAnswer(env: Env): Option<bool> {
    if AsksProductionConfirmation(env.answers.server) then Some(env.answers.confirmProduction) else None
  }

  /** `m` is what the configure questions offer, whenever they are asked. */
  predicate MenusFit(env: Env, m: Menus) {
    WellFormedOutput(env.lsRemoteOutput) ==> m == DefaultMenus(env)
  }

  /** A run that agrees with the account: it halts as `DefaultEnd` says,
      having run the tasks and invoked the commands the account lists, and,
      once the configure questions ran, it offered the menus `m`. */
  predicate FollowsAccount(o: Outcome, env: Env, m: Menus) {
    var end := DefaultEnd(env);
    && o.halt == end.1
    && o.state.trace == FirstTasks(end.0)
    && o.state.commands == DefaultCommands(env, end.0)
    && (end.0 > 4 ==> o.state.menus == Some(m) && o.state.confirmProduction == ProductionAnswer(env))
  }

  /** The configuration store once the first `p` tasks of `DefaultTrace`
      have succeeded, the configure questions having offered `m`. */
  predicate Reached(st: State, env: Env, p: nat, m: Menus) {
    var server := Lookup(env.deployment.servers, env.answers.server);
    && p <= 17
    && st.trace == FirstTasks(p)
    && st.commands == DefaultCommands(env, p)
    && (p > 1 ==> Init in st.succeeded)
    && (p > 2 ==> Configure in st.succeeded)
    && (p == 4 ==> m == OfferedMenus(env, st.remoteTags))
    && (p > 4 ==> st.menus == Some(m) && st.confirmProduction == ProductionAnswer(env)
                  && st.selectedServer == Some(env.answers.server) && st.selectedTag == Some(env.answers.tag))
    && (p > 5 ==> Prepare in st.succeeded)
    && (p > 8 ==> server.Some? && st.rsync == RsyncTarget(env.deployment, server.value)
                  && st.replaceConfigs == Configured(server.value.replaceConfigs))
    && (p > 13 ==> st.confirmDeploy == Some(env.answers.confirmDeploy))
  }

  /** Task `p` behaves as the account says: it lets the run go on to the
      next position when the account runs past it, and stops the run as the
      account says when the account ends with it. */
  predicate StepAgrees(p: nat, st: State, env: Env, m: Menus)
    requires p < 17
  {
    var step := Exec(TaskAt(p), st, env);
    var end := DefaultEnd(env);
    && (p + 1 < end.0 || (p == 16 && end.0 == 17) ==> step.Continue? && Reached(step.state, env, p + 1, m))
    && (p + 1 == end.0 && end.0 < 17 ==> step.Stop? && FollowsAccount(Outcome(step.state, step.halt), env, m))
  }

  /** What is left of the queue once the first `p` tasks have run. */
  function Pending(p: nat): seq<Task>
    requires p <= 17
  {
    if p == 0 then [Default]
    else if p == 1 then [Init, Configure, Prepare, Deploy, Clean]
    else if p == 2 then [Configure, Prepare, Deploy, Clean]
    else if p == 3 then [ListRemoteTags, PromptConfigure, Prepare, Deploy, Clean]
    else if p == 4 then [PromptConfigure, Prepare, Deploy, Clean]
    else if p == 5 then [Prepare, Deploy, Clean]
    else if p == 6 then [GitExport, Deploy, Clean]
    else if p == 7 then [Deploy, Clean]
    else if p == 8 then [DeployConfigure, RegexReplace, DeployDry, PromptConfirmDeploy, DeployLive, Clean]
    else if p == 9 then [GitDescribe, RegexReplace, DeployDry, PromptConfirmDeploy, DeployLive, Clean]
    else if p == 10 then [RegexReplace, DeployDry, PromptConfirmDeploy, DeployLive, Clean]
    else if p == 11 then [DeployDry, PromptConfirmDeploy, DeployLive, Clean]
    else if p == 12 then [RsyncDry, PromptConfirmDeploy, DeployLive, Clean]
    else if p == 13 then [PromptConfirmDeploy, DeployLive, Clean]
    else if p == 14 then [DeployLive, Clean]
    else if p == 15 then [RsyncLive, Clean]
    else if p == 16 then [Clean]
    else []
  }

  /** The queue's head is the next task of `DefaultTrace`, and running it
      replaces it by its subtasks, which gives the next pending queue. */
  lemma PendingStep(p: nat)
    requires p < 17
    ensures |Pending(p)| > 0 && Pending(p)[0] == TaskAt(p)
    ensures Subtasks(TaskAt(p)) + Pending(p)[1..] == Pending(p + 1)
  {
    if p < 8 {
      PendingStepLow(p);
    } else {
      PendingStepHigh(p);
    }
  }

  lemma PendingStepLow(p: nat)
    requires p < 8
    ensures |Pending(p)| > 0 && Pending(p)[0] == TaskAt(p)
    ensures Subtasks(TaskAt(p)) + Pending(p)[1..] == Pending(p + 1)
  {
    if p == 0 {
      assert Subtasks(Default) + [] == Pending(1);
    } else if p == 1 {
      assert Pending(1)[1..] == Pending(2);
    } else if p == 2 {
      assert Pending(2)[1..] == [Prepare, Deploy, Clean];
    } else if p == 3 {
      assert Pending(3)[1..] == Pending(4);
    } else if p == 4 {
      assert Pending(4)[1..] == Pending(5);
    } else if p == 5 {
      assert Pending(5)[1..] == [Deploy, Clean];
    } else if p == 6 {
      assert Pending(6)[1..] == Pending(7);
    } else {
      assert Pending(7)[1..] == [Clean];
    }
  }

  lemma PendingStepHigh(p: nat)
    requires 8 <= p < 17
    ensures |Pending(p)| > 0 && Pending(p)[0] == TaskAt(p)
    ensures Subtasks(TaskAt(p)) + Pending(p)[1..] == Pending(p + 1)
  {
    if p == 8 {
      assert Pending(8)[1..] == Pending(10);
    } else if p == 9 {
      assert Pending(9)[1..] == Pending(10);
    } else if p == 10 {
      assert Pending(10)[1..] == Pending(11);
    } else if p == 11 {
      assert Pending(11)[1..] == [PromptConfirmDeploy, DeployLive, Clean];
    } else if p == 12 {
      assert Pending(12)[1..] == Pending(13);
    } else if p == 13 {
      assert Pending(13)[1..] == Pending(14);
    } else if p == 14 {
      assert Pending(14)[1..] == [Clean];
    } else if p == 15 {
      assert Pending(15)[1..] == Pending(16);
    } else {
      assert Pending(16)[1..] == [];
    }
  }

  /** A task that succeeded: it is in the trace and counts as done. */
  function Mark(st: State, t: Task): State {
    st.(trace := st.trace + [t], succeeded := st.succeeded + {t})
  }

  /** A task that stopped the run after invoking `cmds`. */
  function Attempt(st: State, t: Task, cmds: seq<Command>): State {
    st.(trace := st.trace + [t], commands := st.commands + cmds)
  }

  /** One task that lets the run go on: the rest of the run starts from its
      state with its subtasks in front. */
  lemma RunContinues(queue: seq<Task>, st: State, env: Env, next: State)
    requires |queue| > 0 && Exec(queue[0], st, env) == Continue(next)
    ensures Run(queue, st, env) == Run(Subtasks(queue[0]) + queue[1..], next, env)
  {
  }

  /** One task that stops the run. */
  lemma RunStops(queue: seq<Task>, st: State, env: Env, last: State, h: Halt)
    requires |queue| > 0 && Exec(queue[0], st, env) == Stop(last, h)
    ensures Run(queue, st, env) == Outcome(last, h)
  {
  }

  /** A task with nothing of its own to do succeeds once its prerequisite
      has. */
  lemma PlainStep(t: Task, st: State, env: Env)
    requires t == Default || t == Init || t == Configure || t == Prepare || t == Deploy || t == DeployDry || t == Clean
    requires Prerequisite(t).Some? ==> Prerequisite(t).value in st.succeeded
    ensures Exec(t, st, env) == Continue(Mark(st, t))
  {
  }

  /** The command an invoking task runs, read off the configuration store. */
  function Invoked(t: Task, st: State, env: Env): Command
    requires t == GitExport || t == RegexReplace || t == RsyncDry || t == RsyncLive
  {
    match t
    case GitExport => Export(env.repositoryUrl, st.selectedTag)
    case RegexReplace => Replace(st.replaceConfigs)
    case RsyncDry => Sync(st.rsync, true)
    case RsyncLive => Sync(st.rsync, false)
  }

  /** An invoking task records its command and fails when the command does. */
  lemma InvokeStep(t: Task, st: State, env: Env)
    requires t == GitExport || t == RegexReplace || t == RsyncDry || t == RsyncLive
    ensures t in env.failing ==>
      Exec(t, st, env) == Stop(Attempt(st, t, [Invoked(t, st, env)]), Failed(t, CommandFailed))
    ensures t !in env.failing ==>
      Exec(t, st, env) == Continue(Mark(st.(commands := st.commands + [Invoked(t, st, env)]), t))
  {
  }

  lemma ExecStoresTagList(st: State, env: Env)
    ensures Exec(ListRemoteTags, st, env) == StoreTagList(st.(trace := st.trace + [ListRemoteTags]), env)
  {
  }

  /** The tag listing stores the callback's result, or fails the run. */
  lemma ListStep(st: State, env: Env)
    ensures WellFormedOutput(env.lsRemoteOutput) ==>
      Exec(ListRemoteTags, st, env)
      == Continue(Mark(st.(commands := st.commands + [ListTags],
                           remoteTags := Some(CleanTags(env.lsRemoteOutput))), ListRemoteTags))
    ensures !WellFormedOutput(env.lsRemoteOutput) ==>
      Exec(ListRemoteTags, st, env) == Stop(Attempt(st, ListRemoteTags, [ListTags]), Failed(ListRemoteTags, TypeError))
  {
    ExecStoresTagList(st, env);
  }

  lemma AnswerStep(st: State, env: Env)
    ensures Exec(PromptConfigure, st, env)
         == Continue(Mark(st, PromptConfigure).(menus := Some(OfferedMenus(env, st.remoteTags)),
                                                selectedServer := Some(env.answers.server),
                                                confirmProduction := ProductionAnswer(env),
                                                selectedTag := Some(env.answers.tag)))
  {
    assert Exec(PromptConfigure, st, env) == AnswerConfigure(st.(trace := st.trace + [PromptConfigure]), env);
  }

  lemma ConfigureStep(st: State, env: Env)
    requires st.selectedServer == Some(env.answers.server)
    ensures Lookup(env.deployment.servers, env.answers.server).None? ==>
      Exec(DeployConfigure, st, env) == Stop(Attempt(st, DeployConfigure, []), Failed(DeployConfigure, TypeError))
    ensures Lookup(env.deployment.servers, env.answers.server).Some? ==>
      var cfg := Lookup(env.deployment.servers, env.answers.server).value;
      Exec(DeployConfigure, st, env)
      == Continue(Mark(st.(rsync := RsyncTarget(env.deployment, cfg), replaceConfigs := Configured(cfg.replaceConfigs)),
                       DeployConfigure))
  {
    assert Exec(DeployConfigure, st, env) == ConfigureTarget(st.(trace := st.trace + [DeployConfigure]), env);
  }

  lemma DescribeStep(st: State, env: Env)
    ensures Exec(GitDescribe, st, env) == Continue(Mark(st.(commands := st.commands + [Describe(st.selectedTag)]), GitDescribe))
  {
  }

  lemma ConfirmStep(st: State, env: Env)
    ensures Exec(PromptConfirmDeploy, st, env)
         == Continue(Mark(st, PromptConfirmDeploy).(confirmDeploy := Some(env.answers.confirmDeploy)))
  {
  }

  lemma GateStep(st: State, env: Env)
    ensures st.confirmDeploy == Some(true) ==> Exec(DeployLive, st, env) == Continue(Mark(st, DeployLive))
    ensures st.confirmDeploy != Some(true) ==>
      Exec(DeployLive, st, env) == Stop(Attempt(st, DeployLive, []), Aborted(DeploymentAborted))
  {
    assert Exec(DeployLive, st, env) == GateLive(st.(trace := st.trace + [DeployLive]));
  }

  // One lemma per kind of task in `DefaultTrace`. Each takes the position as
  // a variable its precondition fixes, rather than as a literal.

  lemma PlainAt(p: nat, st: State, env: Env, m: Menus)
    requires p < 17 && Reached(st, env, p, m) && p < DefaultEnd(env).0
    requires p == 0 || p == 1 || p == 2 || p == 5 || p == 7 || p == 11 || p == 16
    ensures StepAgrees(p, st, env, m)
  {
    var t := TaskAt(p);
    PlainStep(t, st, env);
    assert CommandsAt(env, p) == [];
  }

  lemma ListAt(p: nat, st: State, env: Env, m: Menus)
    requires p == 3 && Reached(st, env, p, m) && MenusFit(env, m)
    ensures StepAgrees(p, st, env, m)
  {
    if WellFormedOutput(env.lsRemoteOutput) {
      ListParsesAt(p, st, env, m);
    } else {
      ListThrowsAt(p, st, env, m);
    }
  }

  lemma ListParsesAt(p: nat, st: State, env: Env, m: Menus)
    requires p == 3 && Reached(st, env, p, m) && MenusFit(env, m)
    requires WellFormedOutput(env.lsRemoteOutput)
    ensures StepAgrees(p, st, env, m)
  {
    ListStep(st, env);
    var next := Mark(st.(commands := st.commands + [ListTags],
                         remoteTags := Some(CleanTags(env.lsRemoteOutput))), ListRemoteTags);
    assert Exec(TaskAt(p), st, env) == Continue(next);
    assert m == OfferedMenus(env, next.remoteTags);
    assert Reached(next, env, p + 1, m);
  }

  lemma ListThrowsAt(p: nat, st: State, env: Env, m: Menus)
    requires p == 3 && Reached(st, env, p, m)
    requires !WellFormedOutput(env.lsRemoteOutput)
    ensures StepAgrees(p, st, env, m)
  {
    ListStep(st, env);
    assert DefaultEnd(env) == (4, Failed(ListRemoteTags, TypeError));
  }

  lemma AnswerAt(p: nat, st: State, env: Env, m: Menus)
    requires p == 4 && Reached(st, env, p, m) && p < DefaultEnd(env).0
    ensures StepAgrees(p, st, env, m)
  {
    AnswerStep(st, env);
  }

  lemma InvokeAt(p: nat, st: State, env: Env, m: Menus)
    requires p < 17 && Reached(st, env, p, m) && p < DefaultEnd(env).0
    requires p == 6 || p == 10 || p == 12 || p == 15
    ensures StepAgrees(p, st, env, m)
  {
    InvokeStep(TaskAt(p), st, env);
  }

  lemma ConfigureAt(p: nat, st: State, env: Env, m: Menus)
    requires p == 8 && Reached(st, env, p, m) && p < DefaultEnd(env).0
    ensures StepAgrees(p, st, env, m)
  {
    ConfigureStep(st, env);
  }

  lemma DescribeAt(p: nat, st: State, env: Env, m: Menus)
    requires p == 9 && Reached(st, env, p, m) && p < DefaultEnd(env).0
    ensures StepAgrees(p, st, env, m)
  {
    DescribeStep(st, env);
  }

  lemma ConfirmAt(p: nat, st: State, env: Env, m: Menus)
    requires p == 13 && Reached(st, env, p, m) && p < DefaultEnd(env).0
    ensures StepAgrees(p, st, env, m)
  {
    ConfirmStep(st, env);
  }

  lemma GateAt(p: nat, st: State, env: Env, m: Menus)
    requires p == 14 && Reached(st, env, p, m) && p < DefaultEnd(env).0
    ensures StepAgrees(p, st, env, m)
  {
    GateStep(st, env);
  }

  /** Every position the account reaches behaves as the account says. */
  lemma StepAt(p: nat, st: State, env: Env, m: Menus)
    requires p < 17 && Reached(st, env, p, m) && p < DefaultEnd(env).0 && MenusFit(env, m)
    ensures StepAgrees(p, st, env, m)
  {
    if p == 3 {
      ListAt(p, st, env, m);
    } else if p == 4 {
      AnswerAt(p, st, env, m);
    } else if p == 6 || p == 10 || p == 12 || p == 15 {
      InvokeAt(p, st, env, m);
    } else if p == 8 {
      ConfigureAt(p, st, env, m);
    } else if p == 9 {
      DescribeAt(p, st, env, m);
    } else if p == 13 {
      ConfirmAt(p, st, env, m);
    } else if p == 14 {
      GateAt(p, st, env, m);
    } else {
      PlainAt(p, st, env, m);
    }
  }

  /** Where the account runs past position `p`, the run goes on from the
      state task `p` leaves, with the next pending queue. */
  lemma RunsPast(p: nat, st: State, env: Env, m: Menus)
    requires p < 17 && Reached(st, env, p, m) && MenusFit(env, m)
    requires p + 1 < DefaultEnd(env).0 || (p == 16 && DefaultEnd(env).0 == 17)
    ensures Exec(TaskAt(p), st, env).Continue?
    ensures Reached(Exec(TaskAt(p), st, env).state, env, p + 1, m)
    ensures Run(Pending(p), st, env) == Run(Pending(p + 1), Exec(TaskAt(p), st, env).state, env)
  {
    PendingStep(p);
    StepAt(p, st, env, m);
    RunContinues(Pending(p), st, env, Exec(TaskAt(p), st, env).state);
  }

  /** Where the account ends with position `p`, the run stops there as the
      account says. */
  lemma StopsAt(p: nat, st: State, env: Env, m: Menus)
    requires p < 17 && Reached(st, env, p, m) && MenusFit(env, m)
    requires p + 1 == DefaultEnd(env).0 && DefaultEnd(env).0 < 17
    ensures FollowsAccount(Run(Pending(p), st, env), env, m)
  {
    PendingStep(p);
    StepAt(p, st, env, m);
    var step := Exec(TaskAt(p), st, env);
    RunStops(Pending(p), st, env, step.state, step.halt);
  }

  /** From any position the account reaches, the rest of the queue runs as
      the account says. */
  lemma {:induction false} Follow(p: nat, st: State, env: Env, m: Menus)
    requires Reached(st, env, p, m) && MenusFit(env, m)
    requires p <= DefaultEnd(env).0 && (p == DefaultEnd(env).0 ==> p == 17)
    ensures FollowsAccount(Run(Pending(p), st, env), env, m)
    decreases 17 - p
  {
    if p < 17 {
      var end := DefaultEnd(env);
      if p + 1 < end.0 || (p == 16 && end.0 == 17) {
        RunsPast(p, st, env, m);
        Follow(p + 1, Exec(TaskAt(p), st, env).state, env, m);
      } else {
        StopsAt(p, st, env, m);
      }
    }
  }

  /** The queue machine agrees with the account: `grunt` with no arguments
      halts as `DefaultEnd` says, having run the first tasks of
      `DefaultTrace` up to that point, invoked the commands the account
      lists, and, once the tag listing was parsed, offered the account's
      menus and recorded the production answer only for "prod". */
  lemma DefaultRunFollowsTrace(env: Env)
    ensures var o := RunDefault(env); var end := DefaultEnd(env);
      && o.halt == end.1
      && o.state.trace == DefaultTrace[..end.0]
      && o.state.commands == DefaultCommands(env, end.0)
      && (WellFormedOutput(env.lsRemoteOutput) ==>
            o.state.menus == Some(DefaultMenus(env)) && o.state.confirmProduction == ProductionAnswer(env))
  {
    var m := if WellFormedOutput(env.lsRemoteOutput) then DefaultMenus(env) else Menus([], [], []);
    assert Reached(Start, env, 0, m);
    Follow(0, Start, env, m);
    assert Pending(0) == [Default];
    FirstTasksOfDefaultTrace(DefaultEnd(env).0);
  }

  /** The first `n` tasks are `TaskAt(0)`, ..., `TaskAt(n - 1)`. */
  lemma {:induction false} FirstTasksIndexes(n: nat)
    requires n <= 17
    ensures |FirstTasks(n)| == n
    ensures forall i :: 0 <= i < n ==> FirstTasks(n)[i] == TaskAt(i)
  {
    if n > 0 {
      FirstTasksIndexes(n - 1);
    }
  }

  /** A task is among the first `n` exactly when its position is below
      `n`, and then it stands at its position. */
  lemma FirstTasksMembership(n: nat, t: Task)
    requires n <= 17
    ensures |FirstTasks(n)| == n
    ensures t in FirstTasks(n) <==> Position(t) < n
    ensures Position(t) < n ==> FirstTasks(n)[Position(t)] == t
  {
    FirstTasksIndexes(n);
    PositionIndexes();
  }

  /** The commands the endings before the server is read have invoked: the
      listing, then the export. */
  lemma CommandsBeforeServer(env: Env)
    ensures DefaultCommands(env, 4) == [ListTags]
    ensures DefaultCommands(env, 7) == DefaultCommands(env, 9)
              == [ListTags, Export(env.repositoryUrl, Some(env.answers.tag))]
  {
    assert DefaultCommands(env, 3) == [] by {
      assert DefaultCommands(env, 1) == [];
      assert DefaultCommands(env, 2) == [];
    }
    assert DefaultCommands(env, 6) == [ListTags] by {
      assert DefaultCommands(env, 4) == [ListTags];
      assert DefaultCommands(env, 5) == [ListTags];
    }
    assert DefaultCommands(env, 9) == DefaultCommands(env, 7) by {
      assert DefaultCommands(env, 8) == DefaultCommands(env, 7);
    }
  }

  /** The commands the later endings have invoked: after the export, the
      version lookup and the replacement, then the dry rsync, and last the
      live rsync, the last three reading the selected server's
      configuration. */
  lemma CommandsWithServer(env: Env)
    requires Lookup(env.deployment.servers, env.answers.server).Some?
    ensures var server := Lookup(env.deployment.servers, env.answers.server).value;
      var target := RsyncTarget(env.deployment, server);
      var replaced := [ListTags, Export(env.repositoryUrl, Some(env.answers.tag)),
                       Describe(Some(env.answers.tag)), Replace(Configured(server.replaceConfigs))];
      && DefaultCommands(env, 11) == replaced
      && DefaultCommands(env, 13) == DefaultCommands(env, 15) == replaced + [Sync(target, true)]
      && DefaultCommands(env, 16) == DefaultCommands(env, 17)
           == replaced + [Sync(target, true), Sync(target, false)]
  {
    var server := Lookup(env.deployment.servers, env.answers.server).value;
    var target := RsyncTarget(env.deployment, server);
    var exported := [ListTags, Export(env.repositoryUrl, Some(env.answers.tag))];
    var described := exported + [Describe(Some(env.answers.tag))];
    var replaced := described + [Replace(Configured(server.replaceConfigs))];
    var dry := replaced + [Sync(target, true)];
    CommandsBeforeServer(env);
    assert DefaultCommands(env, 10) == described;
    assert DefaultCommands(env, 11) == replaced;
    assert DefaultCommands(env, 12) == replaced;
    assert DefaultCommands(env, 13) == dry;
    assert DefaultCommands(env, 15) == dry by {
      assert DefaultCommands(env, 14) == dry;
    }
    assert DefaultCommands(env, 16) == dry + [Sync(target, false)];
  }
}
