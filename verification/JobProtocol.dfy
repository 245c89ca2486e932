/** The job signalling protocol: the babysitter watches the application container and creates a marker
    file; the Vault Agent script waits for the file, revokes its token and exits. The two scripts and
    the application run concurrently, one step at a time. */
module JobProtocol {
  import opened Text
  import opened Manifest
  import opened Config
  import opened PodUpdate
  import opened Refinement
  import opened Mutation
  import opened Meaning
  import opened Guarantees

  /** State of a container as Kubernetes reports it. */
  datatype AppState = Waiting | Running | Terminated

  /** Where the babysitter's script is: the access check, the polling loop, creating the signal, leaving. */
  datatype Babysitter = Check | Poll | Signal | Leave | Exited(code: nat)

  /** Where the agent's script is: choosing its branch, the waiting loop, revoking, done; Foreground is
      the branch of a workload that is no job, where the agent itself keeps running. */
  datatype Agent = Start | Watch | Revoke | Done | Foreground

  /** The state of every container of the pod, and every state each has had: the only ones a status query
      can report. */
  datatype State = State(
    now: map<string, AppState>,
    seen: map<string, set<AppState>>,
    signal: bool,
    babysitter: Babysitter,
    agent: Agent)

  /** A status query fails, finds no container of the name, or reports some past or present state of it. */
  datatype Answer = Nothing | Saw(state: AppState)

  datatype Step =
    | ContainerStep(name: string, next: AppState)
    | BabysitterStep(forbidden: bool, answer: Answer)
    | AgentStep

  /** The names of the pod's containers and the two injected environment variables. */
  datatype Setup = Setup(names: set<string>, watched: string, workload: string)

  function Initial(c: Setup): State {
    State(map n | n in c.names :: Waiting, map n | n in c.names :: {Waiting}, false, Check, Start)
  }

  /** Queries select by name among all containers of the pod. */
  predicate Possible(c: Setup, s: State, step: Step) {
    step.BabysitterStep? && step.answer.Saw? ==> c.watched in s.seen && step.answer.state in s.seen[c.watched]
  }

  /** One step; a script that has exited stutters. Containers, the sidecars' own included, may take any
      state at any time. */
  function Next(c: Setup, s: State, step: Step): State {
    match step
    case ContainerStep(name, next) =>
      if name in s.seen then s.(now := s.now[name := next], seen := s.seen[name := s.seen[name] + {next}]) else s
    case BabysitterStep(forbidden, answer) => (
      match s.babysitter
      case Check => s.(babysitter := if forbidden then Exited(1) else Poll)
      case Poll => if answer == Saw(Terminated) then s.(babysitter := Signal) else s
      case Signal => s.(signal := true, babysitter := Leave)
      case Leave => s.(babysitter := Exited(0))
      case Exited(_) => s)
    case AgentStep => (
      match s.agent
      case Start => s.(agent := if c.workload == "true" then Watch else Foreground)
      case Watch => if s.signal then s.(agent := Revoke) else s
      case Revoke => s.(agent := Done)
      case Done => s
      case Foreground => s)
  }

  type Run = nat -> State
  type Schedule = nat -> Step

  /** An execution: any interleaving of containers and scripts from the initial state. */
  ghost predicate IsRun(c: Setup, run: Run, steps: Schedule) {
    && run(0) == Initial(c)
    && forall i: nat :: Possible(c, run(i), steps(i)) && run(i + 1) == Next(c, run(i), steps(i))
  }

  function StateOf(s: State, name: string): Option<AppState> {
    if name in s.now then Some(s.now[name]) else None
  }

  /* ---------- Safety ---------- */

  predicate Invariant(c: Setup, s: State) {
    && s.now.Keys == s.seen.Keys == c.names
    && (forall n :: n in c.names ==> s.now[n] in s.seen[n])
    && (s.babysitter in {Signal, Leave, Exited(0)} ==> c.watched in c.names && Terminated in s.seen[c.watched])
    && (s.signal <==> s.babysitter in {Leave, Exited(0)})
    && (s.agent in {Revoke, Done} ==> s.signal)
    && (s.agent in {Watch, Revoke, Done} ==> c.workload == "true")
    && (s.babysitter.Exited? ==> s.babysitter.code in {0, 1})
  }

  /** Every step keeps the invariant. */
  lemma StepKeeps(c: Setup, s: State, step: Step)
    requires Invariant(c, s) && Possible(c, s, step)
    ensures Invariant(c, Next(c, s, step))
  {
  }

  lemma {:induction false} RunKeeps(c: Setup, run: Run, steps: Schedule, i: nat)
    requires IsRun(c, run, steps)
    ensures Invariant(c, run(i))
  {
    if i > 0 {
      RunKeeps(c, run, steps, i - 1);
      assert run(i - 1 + 1) == Next(c, run(i - 1), steps(i - 1));
      StepKeeps(c, run(i - 1), steps(i - 1));
    }
  }

  /** What was seen happened. */
  lemma {:induction false} SeenHappened(
    c: Setup, run: Run, steps: Schedule, i: nat, name: string, x: AppState) returns (j: nat)
    requires IsRun(c, run, steps) && name in run(i).seen && x in run(i).seen[name]
    ensures j <= i && StateOf(run(j), name) == Some(x)
  {
    RunKeeps(c, run, steps, i);
    if i == 0 {
      j := 0;
    } else {
      RunKeeps(c, run, steps, i - 1);
      assert run(i - 1 + 1) == Next(c, run(i - 1), steps(i - 1));
      if x in run(i - 1).seen[name] {
        j := SeenHappened(c, run, steps, i - 1, name, x);
      } else {
        j := i;
      }
    }
  }

  /** In every run the signal exists only after the watched container, one of the pod's, has terminated,
      and the agent's exit comes only after the signal. */
  lemma Safety(c: Setup, run: Run, steps: Schedule, i: nat)
    requires IsRun(c, run, steps)
    ensures run(i).signal ==>
      c.watched in c.names && exists j: nat :: j <= i && StateOf(run(j), c.watched) == Some(Terminated)
    ensures run(i).agent in {Revoke, Done} ==> run(i).signal && c.workload == "true"
    ensures run(i).babysitter == Exited(0) ==> run(i).signal
  {
    RunKeeps(c, run, steps, i);
    if run(i).signal {
      var j := SeenHappened(c, run, steps, i, c.watched, Terminated);
    }
  }

  /* ---------- Progress ---------- */

  function BabysitterRank(s: State): nat {
    match s.babysitter
    case Check => 4
    case Poll => 3
    case Signal => 2
    case Leave => 1
    case Exited(_) => 0
  }

  function AgentRank(s: State): nat {
    match s.agent
    case Start => 3
    case Watch => 2
    case Revoke => 1
    case Done => 0
    case Foreground => 0
  }

  /** A query answered with the watched container's current state. */
  predicate Truthful(c: Setup, s: State, step: Step) {
    step.BabysitterStep? && step.answer == match StateOf(s, c.watched) case Some(x) => Saw(x) case None => Nothing
  }

  lemma RanksNeverGrow(c: Setup, s: State, step: Step)
    ensures BabysitterRank(Next(c, s, step)) <= BabysitterRank(s)
    ensures AgentRank(Next(c, s, step)) <= AgentRank(s)
    ensures s.signal ==> Next(c, s, step).signal
    ensures s.babysitter.Exited? ==> Next(c, s, step).babysitter == s.babysitter
    ensures s.agent == Done ==> Next(c, s, step).agent == Done
  {
  }

  /** The measures decrease: the babysitter's at a truthful query once the application has terminated,
      the agent's at its own steps once the signal is there. */
  lemma RanksDecrease(c: Setup, s: State, step: Step)
    ensures Truthful(c, s, step) && StateOf(s, c.watched) == Some(Terminated) && !s.babysitter.Exited? ==>
      BabysitterRank(Next(c, s, step)) < BabysitterRank(s)
    ensures step == AgentStep && s.signal && s.agent !in {Done, Foreground} ==>
      AgentRank(Next(c, s, step)) < AgentRank(s)
  {
  }

  lemma {:induction false} RunMonotone(c: Setup, run: Run, steps: Schedule, i: nat, j: nat)
    requires IsRun(c, run, steps) && i <= j
    ensures BabysitterRank(run(j)) <= BabysitterRank(run(i)) && AgentRank(run(j)) <= AgentRank(run(i))
    ensures run(i).signal ==> run(j).signal
    ensures run(i).babysitter.Exited? ==> run(j).babysitter == run(i).babysitter
    ensures run(i).agent == Done ==> run(j).agent == Done
    decreases j - i
  {
    if i < j {
      RunMonotone(c, run, steps, i, j - 1);
      assert run(j - 1 + 1) == Next(c, run(j - 1), steps(j - 1));
      RanksNeverGrow(c, run(j - 1), steps(j - 1));
    }
  }

  ghost predicate BabysitterServed(c: Setup, run: Run, steps: Schedule, i: nat) {
    exists j: nat :: i <= j && (run(j).babysitter.Exited? || Truthful(c, run(j), steps(j)))
  }

  ghost predicate AgentServed(run: Run, steps: Schedule, i: nat) {
    exists j: nat :: i <= j && (run(j).agent == Done || steps(j) == AgentStep)
  }

  /** Until they exit, both scripts keep being scheduled and the query is answered truthfully again and
      again. */
  ghost predicate Fair(c: Setup, run: Run, steps: Schedule) {
    && (forall i: nat :: BabysitterServed(c, run, steps, i))
    && (forall i: nat :: AgentServed(run, steps, i))
  }

  ghost predicate TerminatedFrom(run: Run, name: string, i: nat) {
    forall j: nat :: i <= j ==> StateOf(run(j), name) == Some(Terminated)
  }

  lemma {:induction false} BabysitterExits(c: Setup, run: Run, steps: Schedule, i: nat) returns (k: nat)
    requires IsRun(c, run, steps) && Fair(c, run, steps) && TerminatedFrom(run, c.watched, i)
    ensures i <= k && run(k).babysitter.Exited?
    decreases BabysitterRank(run(i))
  {
    assert BabysitterServed(c, run, steps, i);
    var j: nat :| i <= j && (run(j).babysitter.Exited? || Truthful(c, run(j), steps(j)));
    RunMonotone(c, run, steps, i, j);
    if run(j).babysitter.Exited? {
      k := j;
    } else {
      assert run(j + 1) == Next(c, run(j), steps(j));
      RanksDecrease(c, run(j), steps(j));
      k := BabysitterExits(c, run, steps, j + 1);
    }
  }

  lemma {:induction false} AgentExits(c: Setup, run: Run, steps: Schedule, i: nat) returns (k: nat)
    requires IsRun(c, run, steps) && Fair(c, run, steps) && run(i).signal && c.workload == "true"
    ensures i <= k && run(k).agent == Done
    decreases AgentRank(run(i))
  {
    assert AgentServed(run, steps, i);
    var j: nat :| i <= j && (run(j).agent == Done || steps(j) == AgentStep);
    RunMonotone(c, run, steps, i, j);
    NeverForeground(c, run, steps, j);
    if run(j).agent == Done {
      k := j;
    } else {
      assert run(j + 1) == Next(c, run(j), steps(j));
      RanksDecrease(c, run(j), steps(j));
      k := AgentExits(c, run, steps, j + 1);
    }
  }

  lemma {:induction false} NeverForeground(c: Setup, run: Run, steps: Schedule, i: nat)
    requires IsRun(c, run, steps) && c.workload == "true"
    ensures run(i).agent != Foreground
  {
    if i > 0 {
      NeverForeground(c, run, steps, i - 1);
      assert run(i - 1 + 1) == Next(c, run(i - 1), steps(i - 1));
    }
  }

  /** Once the babysitter has left without access, no signal is ever sent and the agent never exits. */
  lemma NoSignalWithoutAccess(c: Setup, run: Run, steps: Schedule, i: nat, k: nat)
    requires IsRun(c, run, steps) && run(i).babysitter == Exited(1)
    ensures !run(k).signal && run(k).agent !in {Revoke, Done}
  {
    RunKeeps(c, run, steps, i);
    RunKeeps(c, run, steps, k);
    if i <= k {
      RunMonotone(c, run, steps, i, k);
    } else {
      RunMonotone(c, run, steps, k, i);
    }
  }

  /** The babysitter leaves without signalling exactly when its access check was refused. */
  lemma {:induction false} AccessDecides(c: Setup, run: Run, steps: Schedule, k: nat)
    requires IsRun(c, run, steps)
    ensures run(k).babysitter == Exited(1) <==>
      exists j: nat :: j < k && run(j).babysitter == Check && steps(j).BabysitterStep? && steps(j).forbidden
  {
    RunKeeps(c, run, steps, k);
    if k > 0 {
      AccessDecides(c, run, steps, k - 1);
      assert run(k - 1 + 1) == Next(c, run(k - 1), steps(k - 1));
      RunKeeps(c, run, steps, k - 1);
    }
  }

  /** The agent revokes its token, after the signal, before it is done. */
  lemma {:induction false} RevokesFirst(c: Setup, run: Run, steps: Schedule, i: nat)
    requires IsRun(c, run, steps) && run(i).agent == Done
    ensures exists j: nat :: j < i && run(j).agent == Revoke && run(j).signal
  {
    assert run(i - 1 + 1) == Next(c, run(i - 1), steps(i - 1));
    RunKeeps(c, run, steps, i - 1);
    if run(i - 1).agent == Done {
      RevokesFirst(c, run, steps, i - 1);
    }
  }

  /** Progress: in a fair run of a job whose watched container has terminated for good, both sidecars exit,
      in order, exactly when the babysitter was not refused access. */
  lemma Progress(c: Setup, run: Run, steps: Schedule, i: nat)
    requires IsRun(c, run, steps) && Fair(c, run, steps) && TerminatedFrom(run, c.watched, i)
    requires c.workload == "true"
    ensures (exists k: nat :: run(k).agent == Done && run(k).babysitter == Exited(0)) <==>
            (forall k: nat :: run(k).babysitter != Exited(1))
  {
    var b := BabysitterExits(c, run, steps, i);
    RunKeeps(c, run, steps, b);
    if run(b).babysitter == Exited(1) {
      forall k: nat
        ensures run(k).agent != Done
      {
        NoSignalWithoutAccess(c, run, steps, b, k);
      }
    } else {
      var k := AgentExits(c, run, steps, b);
      RunMonotone(c, run, steps, b, k);
      forall j: nat
        ensures run(j).babysitter != Exited(1)
      {
        if run(j).babysitter == Exited(1) {
          NoSignalWithoutAccess(c, run, steps, j, k);
        }
      }
    }
  }

  /** An agent that is not told it runs beside a job never exits by itself. */
  lemma ForegroundStays(c: Setup, run: Run, steps: Schedule, i: nat)
    requires IsRun(c, run, steps) && c.workload != "true"
    ensures run(i).agent == Start || run(i).agent == Foreground
  {
    RunKeeps(c, run, steps, i);
    assert run(i).agent !in {Watch, Revoke, Done};
  }

  /** The run that a schedule determines. */
  function StateAt(c: Setup, steps: Schedule, i: nat): State {
    if i == 0 then Initial(c) else Next(c, StateAt(c, steps, i - 1), steps(i - 1))
  }

  /** The watched container terminates at once and every query tells. */
  function PromptSchedule(c: Setup): Schedule {
    i => if i == 0 then ContainerStep(c.watched, Terminated) else BabysitterStep(false, Saw(Terminated))
  }

  lemma {:induction false} PromptSeen(c: Setup, i: nat)
    requires c.watched in c.names && i > 0
    ensures var seen := StateAt(c, PromptSchedule(c), i).seen; c.watched in seen && Terminated in seen[c.watched]
  {
    if i > 1 {
      PromptSeen(c, i - 1);
    } else {
      assert StateAt(c, PromptSchedule(c), 1) == Next(c, Initial(c), ContainerStep(c.watched, Terminated));
    }
  }

  lemma PromptSignals(c: Setup)
    requires c.watched in c.names
    ensures StateAt(c, PromptSchedule(c), 4).signal
  {
    var steps := PromptSchedule(c);
    assert StateAt(c, steps, 1).babysitter == Check;
    assert StateAt(c, steps, 2).babysitter == Poll;
    assert StateAt(c, steps, 3).babysitter == Signal;
  }

  /** A babysitter can signal, in some run, exactly when some container of the pod bears the name it was
      told: told another sidecar's name it signals for that one, told none it never does. */
  lemma SignalIffNamed(c: Setup)
    ensures (exists run: Run, steps: Schedule, i: nat :: IsRun(c, run, steps) && run(i).signal)
      <==> c.watched in c.names
  {
    if c.watched in c.names {
      var steps := PromptSchedule(c);
      var run: Run := (i: nat) => StateAt(c, steps, i);
      forall i: nat
        ensures Possible(c, run(i), steps(i)) && run(i + 1) == Next(c, run(i), steps(i))
      {
        if i > 0 {
          PromptSeen(c, i);
        }
      }
      PromptSignals(c);
      assert IsRun(c, run, steps) && run(4).signal;
    }
    if run: Run, steps: Schedule, i: nat :| IsRun(c, run, steps) && run(i).signal {
      Safety(c, run, steps, i);
    }
  }

  /* ---------- The injected containers run this protocol ---------- */

  /** The value a container sees: the last entry of that name. */
  function EnvValue(env: seq<EnvVar>, name: string): string {
    if env == [] then ""
    else if env[|env| - 1].name == name then env[|env| - 1].value
    else EnvValue(env[..|env| - 1], name)
  }

  predicate DeclaresEnv(env: seq<EnvVar>, name: string) {
    exists i :: 0 <= i < |env| && env[i].name == name
  }

  lemma {:induction false} EnvValueIs(env: seq<EnvVar>, name: string, value: string)
    requires DeclaresEnv(env, name)
    requires forall i :: 0 <= i < |env| && env[i].name == name ==> env[i].value == value
    ensures EnvValue(env, name) == value
    decreases |env|
  {
    if env[|env| - 1].name != name {
      var i :| 0 <= i < |env| && env[i].name == name;
      assert env[..|env| - 1][i].name == name;
      EnvValueIs(env[..|env| - 1], name, value);
    }
  }

  function ContainerNames(cs: seq<Container>): set<string> {
    set i | 0 <= i < |cs| :: cs[i].name
  }

  /** The protocol's parameters: the containers of the mutated pod and what two injected ones receive. */
  function SetupOf(cfg: VSIConfig, pod: Pod, ctx: InjectionContext, babysitter: Container, agent: Container): Setup {
    Setup(ContainerNames(MutatedPod(cfg, pod, ctx).containers),
          EnvValue(babysitter.env, JOB_CONTAINER_ENV), EnvValue(agent.env, JOB_WORKLOAD_ENV))
  }

  /** From annotations to termination: in a pod mutated with job mode on, take an injected babysitter and an
      injected agent whose configuration declares their variables. In every run the signal exists only
      after the pod's own container has terminated, and in every fair run after it has terminated for good
      both exit exactly when access was not refused. */
  lemma InjectedJobProgress(
    cfg: VSIConfig, pod: Pod, babysitter: Container, agent: Container, run: Run, steps: Schedule, i: nat)
    requires PodPatch(cfg, pod).Success? && JobRequested(cfg, pod.annotations)
    requires babysitter in InjectedSidecars(cfg, pod, ContextFor(cfg, pod).value)
    requires babysitter.name == JOB_BABYSITTER && DeclaresEnv(babysitter.env, JOB_CONTAINER_ENV)
    requires agent in InjectedSidecars(cfg, pod, ContextFor(cfg, pod).value)
    requires agent.name == VAULT_AGENT && DeclaresEnv(agent.env, JOB_WORKLOAD_ENV)
    requires IsRun(SetupOf(cfg, pod, ContextFor(cfg, pod).value, babysitter, agent), run, steps)
    ensures pod.containers != [] && forall k: nat :: run(k).signal ==>
      exists j: nat :: j <= k && StateOf(run(j), pod.containers[0].name) == Some(Terminated)
    ensures TerminatedFrom(run, pod.containers[0].name, i) ==>
      Fair(SetupOf(cfg, pod, ContextFor(cfg, pod).value, babysitter, agent), run, steps) ==>
      ((exists k: nat :: run(k).agent == Done && run(k).babysitter == Exited(0)) <==>
       (forall k: nat :: run(k).babysitter != Exited(1)))
  {
    var c := SetupOf(cfg, pod, ContextFor(cfg, pod).value, babysitter, agent);
    InjectedSetup(cfg, pod, babysitter, agent);
    forall k: nat {
      Safety(c, run, steps, k);
    }
    if Fair(c, run, steps) && TerminatedFrom(run, c.watched, i) {
      Progress(c, run, steps, i);
    }
  }

  /** The webhook tells the babysitter the name of the pod's own container, and the agent of the job. */
  lemma InjectedSetup(cfg: VSIConfig, pod: Pod, babysitter: Container, agent: Container)
    requires PodPatch(cfg, pod).Success? && JobRequested(cfg, pod.annotations)
    requires babysitter in InjectedSidecars(cfg, pod, ContextFor(cfg, pod).value)
    requires babysitter.name == JOB_BABYSITTER && DeclaresEnv(babysitter.env, JOB_CONTAINER_ENV)
    requires agent in InjectedSidecars(cfg, pod, ContextFor(cfg, pod).value)
    requires agent.name == VAULT_AGENT && DeclaresEnv(agent.env, JOB_WORKLOAD_ENV)
    ensures pod.containers != []
    ensures var c := SetupOf(cfg, pod, ContextFor(cfg, pod).value, babysitter, agent);
      c.watched == pod.containers[0].name && c.watched in c.names && c.workload == "true"
  {
    var ctx := ContextFor(cfg, pod).value;
    JobPairing(cfg, pod);
    EnvValueIs(babysitter.env, JOB_CONTAINER_ENV, pod.containers[0].name);
    EnvValueIs(agent.env, JOB_WORKLOAD_ENV, "true");
    OwnName(cfg, pod, ctx);
  }

  lemma OwnName(cfg: VSIConfig, pod: Pod, ctx: InjectionContext)
    requires pod.containers != []
    ensures pod.containers[0].name in ContainerNames(MutatedPod(cfg, pod, ctx).containers)
  {
    OwnAt(cfg, pod, ctx, 0);
    OneContainerFrame(ChangeFor(cfg, pod, ctx), pod.containers[0]);
  }
}
