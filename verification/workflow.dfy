/**
 The grunt tasks of the deployment script as a state machine. Grunt keeps a
 queue of task names; a running task may enqueue further tasks with
 `grunt.task.run`, which places them right after itself, ahead of whatever
 was queued before. `grunt.task.requires` fails a task unless the named task
 already succeeded. The configuration store (`grunt.config`) is the explicit
 `State` record, and everything the run takes from outside (the manifest,
 the output of `git ls-remote`, the operator's answers, which external
 commands fail) is the `Env` record.
 */
module Workflow {
  import opened JsText
  import opened TagList
  import opened Manifest
  import opened Prompts

  datatype Task =
    | Default              // the `default` alias
    | Init
    | Configure
    | Prepare
    | Deploy
    | DeployConfigure      // deploy.configure
    | DeployDry            // deploy.dry
    | DeployLive           // deploy.live
    | Clean                // clean (both targets)
    | ListRemoteTags       // shell:gitListRemoteTags
    | PromptConfigure      // prompt:configure
    | GitExport            // shell:gitExport
    | GitDescribe          // shell:gitDescribe
    | RegexReplace         // regex-replace:configs
    | PromptConfirmDeploy  // prompt:confirmDeploy
    | RsyncDry             // rsync:deployDry
    | RsyncLive            // rsync:deployLive

  /** The tasks a task enqueues when it succeeds: an alias's list, or the
      arguments of its `grunt.task.run` call. */
  function Subtasks(t: Task): seq<Task> {
    match t
    case Default => [Init, Configure, Prepare, Deploy, Clean]
    case Configure => [ListRemoteTags, PromptConfigure]
    case Prepare => [GitExport]
    case Deploy => [DeployConfigure, RegexReplace, DeployDry, PromptConfirmDeploy, DeployLive]
    case DeployConfigure => [GitDescribe]
    case DeployDry => [RsyncDry]
    case DeployLive => [RsyncLive]
    case _ => []
  }

  /** The task named by a task's `grunt.task.requires` call. */
  function Prerequisite(t: Task): Option<Task> {
    match t
    case Configure => Some(Init)
    case Prepare => Some(Configure)
    case Deploy => Some(Prepare)
    case _ => None
  }

  /** How many tasks run, `t` included, when `t` runs to completion. */
  function Weight(t: Task): nat {
    match t
    case Default => 17
    case Configure => 3
    case Prepare => 2
    case Deploy => 9
    case DeployConfigure => 2
    case DeployDry => 2
    case DeployLive => 2
    case _ => 1
  }

  function QueueWeight(queue: seq<Task>): nat {
    if |queue| == 0 then 0 else Weight(queue[0]) + QueueWeight(queue[1..])
  }

  lemma {:induction false} QueueWeightAppend(a: seq<Task>, b: seq<Task>)
    ensures QueueWeight(a + b) == QueueWeight(a) + QueueWeight(b)
    decreases |a|
  {
    if |a| > 0 {
      assert (a + b)[1..] == a[1..] + b;
      QueueWeightAppend(a[1..], b);
    } else {
      assert a + b == b;
    }
  }

  /** A task's weight counts itself and its subtasks' weights. */
  lemma SubtasksWeight(t: Task)
    ensures QueueWeight(Subtasks(t)) + 1 == Weight(t)
  {
    match t
    case Default =>
      assert QueueWeight([Clean]) == 1;
      assert QueueWeight([Deploy, Clean]) == 10;
      assert QueueWeight([Prepare, Deploy, Clean]) == 12;
      assert QueueWeight([Configure, Prepare, Deploy, Clean]) == 15;
    case Deploy =>
      assert QueueWeight([DeployLive]) == 2;
      assert QueueWeight([PromptConfirmDeploy, DeployLive]) == 3;
      assert QueueWeight([DeployDry, PromptConfirmDeploy, DeployLive]) == 5;
      assert QueueWeight([RegexReplace, DeployDry, PromptConfirmDeploy, DeployLive]) == 6;
    case Configure =>
      assert QueueWeight([PromptConfigure]) == 1;
    case Prepare | DeployConfigure | DeployDry | DeployLive =>
      assert Subtasks(t)[1..] == [];
    case _ =>
  }

  /** Replacing a task by its subtasks lowers the weight of the queue by one. */
  lemma QueueWeightStep(queue: seq<Task>)
    requires |queue| > 0
    ensures QueueWeight(Subtasks(queue[0]) + queue[1..]) + 1 == QueueWeight(queue)
  {
    QueueWeightAppend(Subtasks(queue[0]), queue[1..]);
    SubtasksWeight(queue[0]);
  }

  /** What the operator answers to the four questions. */
  datatype Answers = Answers(
    server: JsString,
    confirmProduction: bool,
    tag: JsString,
    confirmDeploy: bool)

  /** Everything the run takes from outside. `failing` holds the external
      commands that exit with an error. */
  datatype Env = Env(
    deployment: DeploymentConfig,
    repositoryUrl: JsString,
    lsRemoteOutput: Option<JsString>,
    failing: set<Task>,
    answers: Answers)

  /** A configuration value that still holds the placeholder
      'needs to be configured', or the value given to it. */
  datatype Setting<T> = Unconfigured | Configured(value: T)

  /** `rsync.options`: where the export is copied to. */
  datatype RsyncOptions = RsyncOptions(
    host: Setting<JsString>,
    dest: Setting<JsString>,
    exclude: seq<JsString>)

  /** The external commands the run invokes, in order: the collaborators a
      test would observe. */
  datatype Command =
    | ListTags                                          // git ls-remote --tags
    | Export(url: JsString, tag: Option<JsString>)      // git archive --remote=url tag | tar x
    | Describe(tag: Option<JsString>)                   // git describe --long tag
    | Replace(rules: Setting<seq<ReplaceRule>>)         // the regex-replace plugin
    | Sync(options: RsyncOptions, dryRun: bool)         // rsync -rtvuc [--dry-run]

  /** The menus the configure questions offered. */
  datatype Menus = Menus(servers: seq<JsString>, defaultServer: JsString, tags: seq<JsString>)

  datatype State = State(
    remoteTags: Option<seq<JsString>>,          // gitListRemoteTags
    menus: Option<Menus>,
    selectedServer: Option<JsString>,           // prompt.selectedServer
    confirmProduction: Option<bool>,            // prompt.confirmProduction
    selectedTag: Option<JsString>,              // prompt.selectedTag
    confirmDeploy: Option<bool>,                // prompt.confirmDeploy
    rsync: RsyncOptions,                        // rsync.options
    replaceConfigs: Setting<seq<ReplaceRule>>,  // regex-replace.configs
    succeeded: set<Task>,
    trace: seq<Task>,
    commands: seq<Command>)

  const Start: State :=
    State(None, None, None, None, None, None,
          RsyncOptions(Unconfigured, Unconfigured, []), Unconfigured, {}, [], [])

  datatype Failure = PrerequisiteMissing(required: Task) | CommandFailed | TypeError

  /** How a run ends: the queue ran empty, `grunt.fatal` was called, or a
      task failed (which stops grunt without `--force`). */
  datatype Halt = Completed | Aborted(message: JsString) | Failed(task: Task, reason: Failure)

  /** "Deployment aborted" */
  const DeploymentAborted: JsString :=
    [0x44, 0x65, 0x70, 0x6C, 0x6F, 0x79, 0x6D, 0x65, 0x6E, 0x74,
     0x20, 0x61, 0x62, 0x6F, 0x72, 0x74, 0x65, 0x64]

  datatype Step = Continue(state: State) | Stop(state: State, halt: Halt)

  /** `user + '@' + ip` */
  function Host(user: JsString, ip: JsString): JsString {
    user + [At] + ip
  }

  /** The host splits back at its `@` into the user and the address when
      neither holds an `@`; with one in the user the split comes out
      different. */
  lemma HostSplitsBack(user: JsString, ip: JsString)
    ensures At !in user && At !in ip ==> Split(Host(user, ip), At) == [user, ip]
    ensures At in user ==> Split(Host(user, ip), At) != [user, ip]
  {
    if At !in user && At !in ip {
      assert Host(user, ip) == Join([user, ip], At);
      JoinThenSplit([user, ip], At);
    } else if At in user {
      var parts := Split(Host(user, ip), At);
      SplitPieces(Host(user, ip), At);
      assert At !in parts[0];
    }
  }

  /** The rsync options `deploy.configure` derives for a server. */
  function RsyncTarget(deployment: DeploymentConfig, server: ServerConfig): RsyncOptions {
    RsyncOptions(Configured(Host(server.user, server.ip)), Configured(server.dest), deployment.exclude)
  }

  /** The configuration of the server the operator selected, if the
      selection names one. */
  function SelectedConfig(st: State, deployment: DeploymentConfig): Option<ServerConfig> {
    if st.selectedServer.Some? then Lookup(deployment.servers, st.selectedServer.value) else None
  }

  function Succeed(st: State, t: Task): Step {
    Continue(st.(succeeded := st.succeeded + {t}))
  }

  /** Runs an external command; a failing one fails its task. */
  function Invoke(st: State, t: Task, c: Command, env: Env): Step {
    var st := st.(commands := st.commands + [c]);
    if t in env.failing then Stop(st, Failed(t, CommandFailed)) else Succeed(st, t)
  }

  /** `shell:gitListRemoteTags`: runs `git ls-remote --tags` and stores what
      its callback returns; the callback throws on a kept line without a tab. */
  function StoreTagList(st: State, env: Env): Step {
    var st := st.(commands := st.commands + [ListTags]);
    if WellFormedOutput(env.lsRemoteOutput) then
      Succeed(st.(remoteTags := Some(CleanTags(env.lsRemoteOutput))), ListRemoteTags)
    else
      Stop(st, Failed(ListRemoteTags, TypeError))
  }

  /** `prompt:configure`: offers the menus and records the answers; the
      production question is only asked, and only recorded, for "prod". */
  function AnswerConfigure(st: State, env: Env): Step {
    var servers := env.deployment.servers;
    var a := env.answers;
    Succeed(st.(menus := Some(Menus(ServerChoices(servers), DefaultServer(servers), TagChoices(st.remoteTags))),
                selectedServer := Some(a.server),
                confirmProduction := if AsksProductionConfirmation(a.server) then Some(a.confirmProduction) else None,
                selectedTag := Some(a.tag)), PromptConfigure)
  }

  /** `deploy.configure`: points rsync and the replacements at the selected
      server; reading a field of a server the manifest lacks throws. */
  function ConfigureTarget(st: State, env: Env): Step {
    var server := SelectedConfig(st, env.deployment);
    if server.None? then
      Stop(st, Failed(DeployConfigure, TypeError))
    else
      Succeed(st.(rsync := RsyncTarget(env.deployment, server.value),
                  replaceConfigs := Configured(server.value.replaceConfigs)), DeployConfigure)
  }

  /** `deploy.live`: goes on only when the deploy question was answered yes;
      otherwise `grunt.fatal` ends the run. */
  function GateLive(st: State): Step {
    if st.confirmDeploy == Some(true) then Succeed(st, DeployLive)
    else Stop(st, Aborted(DeploymentAborted))
  }

  /** Runs one task. */
  function Exec(t: Task, st0: State, env: Env): (step: Step)
    ensures step.state.trace == st0.trace + [t]
    ensures step.Stop? ==> !step.halt.Completed?
  {
    var st := st0.(trace := st0.trace + [t]);
    if Prerequisite(t).Some? && Prerequisite(t).value !in st.succeeded then
      Stop(st, Failed(t, PrerequisiteMissing(Prerequisite(t).value)))
    else
      match t
      case ListRemoteTags => StoreTagList(st, env)
      case PromptConfigure => AnswerConfigure(st, env)
      case GitExport => Invoke(st, t, Export(env.repositoryUrl, st.selectedTag), env)
      case DeployConfigure => ConfigureTarget(st, env)
      case GitDescribe => Succeed(st.(commands := st.commands + [Describe(st.selectedTag)]), t)
      case RegexReplace => Invoke(st, t, Replace(st.replaceConfigs), env)
      case RsyncDry => Invoke(st, t, Sync(st.rsync, true), env)
      case PromptConfirmDeploy => Succeed(st.(confirmDeploy := Some(env.answers.confirmDeploy)), t)
      case DeployLive => GateLive(st)
      case RsyncLive => Invoke(st, t, Sync(st.rsync, false), env)
      case _ => Succeed(st, t)
  }

  datatype Outcome = Outcome(state: State, halt: Halt)

  /** Runs the queue until it is empty or a task stops the run. Every task
      run is appended to the trace; a run that completes runs exactly the
      queue's weight in tasks. */
  function Run(queue: seq<Task>, st: State, env: Env): (o: Outcome)
    ensures st.trace <= o.state.trace
    ensures |o.state.trace| <= |st.trace| + QueueWeight(queue)
    ensures o.halt.Completed? ==> |o.state.trace| == |st.trace| + QueueWeight(queue)
    decreases QueueWeight(queue)
  {
    if queue == [] then Outcome(st, Completed)
    else
      match Exec(queue[0], st, env)
      case Stop(s, h) => Outcome(s, h)
      case Continue(s) =>
        QueueWeightStep(queue);
        Run(Subtasks(queue[0]) + queue[1..], s, env)
  }

  /** `grunt` with no arguments. */
  function RunDefault(env: Env): Outcome {
    Run([Default], Start, env)
  }
}
