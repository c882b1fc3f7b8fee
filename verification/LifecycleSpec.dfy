/** The life of a stack on disk: what one command does to the runtime directory, the compose file, the saved state and the
    Docker volumes when any of its steps may fail. internal/stacks/stack_manager.go. */
module LifecycleSpec {
  import opened Wrappers
  import opened Decimal
  import opened Names
  import opened Types
  import opened ComposeSpec
  import opened ComposeExact

  // ---------------------------------------------------------------- what there is on disk and in memory

  datatype ComposeFile = Missing | Damaged | Written(services: map<ServiceId, Shape>)

  /** stackState.json in the runtime directory. */
  datatype StateFile = NoState | DamagedState | State(accounts: seq<Option<Account>>, deployed: seq<DeployedContract>)

  /** completed is history, not on disk: the first-time setup that made the runtime directory has come to its end. */
  datatype Disk = Disk(runtime: bool, compose: ComposeFile, state: StateFile, volumes: set<VolumeId>, completed: bool)

  /** The disk together with the state in memory and the result of deploying the FireFly contract. */
  datatype World = World(disk: Disk, accounts: seq<Option<Account>>, deployed: seq<DeployedContract>,
                         contract: Option<DeployedContract>)

  function WithDeployed(s: Stack, deployed: seq<DeployedContract>): Stack {
    s.(deployed := deployed)
  }

  /** The state file that init writes and setup copies: one entry for each member, with or without an account. */
  function InitState(s: Stack): StateFile {
    State(seq(|s.members|, i requires 0 <= i < |s.members| => s.members[i].account), [])
  }

  // ---------------------------------------------------------------- steps

  datatype Stage =
    | CheckPorts
    | Stat
    | CopyInit
    | WriteDisabled
    | ProviderSetup
    | CopyPrometheus
    | CopyExchange(i: nat)
    | Pull
    | PreStart(round: nat)
    | Up(round: nat)
    | PostStart(round: nat)
    | DeployTokens(k: nat)
    | DeployFireFly
    | ReadLocation(i: nat)
    | PatchConfig(i: nat)
    | CreateCoreVolume(i: nat)
    | MkdirCore(i: nat)
    | WriteEnabled
    | StopAll
    | NodesUp(round: nat)
    | Register
    | InitTokens(k: nat)
    | WriteState
    | Down
    | RemoveRuntime
    | RemoveVolume(v: VolumeId)

  /** What a step that fails has done to its file: nothing yet, half of it, or all of it. */
  datatype FileLeft = Untouched | Ruined | Finished

  /** What a step that fails may leave behind. */
  datatype Leftover = Leftover(runtime: bool, file: FileLeft, volumes: set<VolumeId>)

  /** Done also stands for a deployment that returns neither a contract nor an error. */
  datatype Outcome = Done | Deployed(contract: DeployedContract) | Failed(error: string, leftover: Leftover)

  datatype Status = Completed | Stopped(stage: Stage, error: string) | Panicked

  predicate Touches(stage: Stage) {
    || stage.CopyInit? || stage.WriteDisabled? || stage.WriteEnabled? || stage.WriteState?
    || stage.DeployTokens? || stage.DeployFireFly? || stage.RemoveRuntime? || stage.RemoveVolume?
  }

  function Numbered(n: nat, f: nat -> VolumeId): set<VolumeId> {
    set i: nat | i < n :: f(i)
  }

  /** The volumes that the providers' FirstTimeSetup fills. Connector configs are copied to a volume even where the
      connector mounts the file instead. */
  function ProviderVolumes(s: Stack): set<VolumeId> {
    var n, kind := |s.members|, ConnectorOf(s.provider);
    var configs, data := Numbered(n, (i: nat) => ConnectorConfig(kind, i)), Numbered(n, (i: nat) => ConnectorData(kind, i));
    match s.provider
    case GethNode(_) => data + configs + {GethData}
    case BesuNode(_) => {EthsignerData, EthsignerConfig} + data + {BesuData} + configs
    case QuorumNode(_, tessera) =>
      data + configs + Numbered(n, (i: nat) => QuorumData(i)) + if tessera then Numbered(n, (i: nat) => TesseraData(i)) else {}
    case RemoteRPC(_) => {EthsignerData, EthsignerConfig} + data + configs
    case Tezos => {TezossignerData, TezossignerConfig} + configs
    case Fabric(remote) => if remote then {} else {FireflyFabric}
  }

  /** The volumes a step creates if they are not there. */
  function Creates(s: Stack, stage: Stage): set<VolumeId>
    requires ValidStack(s)
  {
    match stage
    case ProviderSetup => ProviderVolumes(s)
    case CopyPrometheus => {PrometheusConfig}
    case CopyExchange(i) => {DataExchangeData(i)}
    case Up(_) => AssembledVolumes(s)
    case CreateCoreVolume(i) => {CoreData(i)}
    case _ => {}
  }

  function Rewritten(compose: ComposeFile, services: map<ServiceId, Shape>, outcome: Outcome): ComposeFile {
    if !outcome.Failed? then Written(services)
    else
      match outcome.leftover.file
      case Untouched => compose
      case Ruined => Damaged
      case Finished => Written(services)
  }

  function StateLeft(before: StateFile, after: StateFile, file: FileLeft): StateFile {
    match file
    case Untouched => before
    case Ruined => DamagedState
    case Finished => after
  }

  predicate CreatesNothing(stage: Stage) {
    !stage.ProviderSetup? && !stage.CopyPrometheus? && !stage.CopyExchange? && !stage.Up? && !stage.CreateCoreVolume?
  }

  function VolumesAfter(s: Stack, volumes: set<VolumeId>, stage: Stage, outcome: Outcome): set<VolumeId>
    requires ValidStack(s)
  {
    if stage.RemoveVolume? then if outcome.Failed? then volumes else volumes - {stage.v}
    else if CreatesNothing(stage) then volumes
    else volumes + if outcome.Failed? then Creates(s, stage) * outcome.leftover.volumes else Creates(s, stage)
  }

  function FilesAfter(s: Stack, w: World, stage: Stage, outcome: Outcome): Disk
    requires ValidStack(s)
  {
    var d := w.disk;
    match stage
    case CopyInit =>
      if !outcome.Failed? then d.(runtime := true, state := InitState(s), completed := false)
      else d.(runtime := outcome.leftover.runtime, completed := false,
              state := if outcome.leftover.runtime then StateLeft(NoState, InitState(s), outcome.leftover.file) else NoState)
    case WriteDisabled =>
      var s' := WithDeployed(s, w.deployed);
      d.(compose := Rewritten(d.compose, Disabled(s', Assembled(s'), |s'.members|), outcome))
    case WriteEnabled => d.(compose := Rewritten(d.compose, Assembled(WithDeployed(s, w.deployed)), outcome))
    case WriteState =>
      if !outcome.Failed? then d.(state := State(w.accounts, w.deployed))
      else d.(state := StateLeft(d.state, State(w.accounts, w.deployed), outcome.leftover.file))
    case RemoveRuntime =>
      if !outcome.Failed? then d.(runtime := false, state := NoState, completed := false)
      else d.(state := StateLeft(d.state, NoState, outcome.leftover.file))
    case _ => d
  }

  function Apply(s: Stack, w: World, stage: Stage, outcome: Outcome): World
    requires ValidStack(s)
  {
    var w' := w.(disk := FilesAfter(s, w, stage, outcome).(volumes := VolumesAfter(s, w.disk.volumes, stage, outcome)));
    if outcome.Deployed? && stage.DeployTokens? then w'.(deployed := w.deployed + [outcome.contract])
    else if outcome.Deployed? && stage.DeployFireFly? then
      w'.(deployed := w.deployed + [outcome.contract], contract := Some(outcome.contract))
    else w'
  }

  /** Steps in order until one fails; reading the location of a contract that is not there ends the program. */
  function Run(s: Stack, w: World, stages: seq<Stage>, env: Stage -> Outcome): (World, Status)
    requires ValidStack(s)
    decreases |stages|
  {
    if stages == [] then (w, Completed)
    else
      var stage := stages[0];
      var outcome := env(stage);
      if stage.ReadLocation? && w.contract.None? then (w, Panicked)
      else if outcome.Failed? && !stage.ReadLocation? then (Apply(s, w, stage, outcome), Stopped(stage, outcome.error))
      else Run(s, Apply(s, w, stage, outcome), stages[1..], env)
  }

  // ---------------------------------------------------------------- first-time setup

  function Startup(round: nat): seq<Stage> {
    [PreStart(round), Up(round), PostStart(round)]
  }

  function ExchangeStages(n: nat): seq<Stage> {
    if n == 0 then [] else ExchangeStages(n - 1) + [CopyExchange(n - 1)]
  }

  function PrepareStages(s: Stack): seq<Stage> {
    [CopyInit, WriteDisabled, ProviderSetup] + (if s.prometheusEnabled then [CopyPrometheus] else [])
    + ExchangeStages(|s.members|) + [Pull]
  }

  function TokenStages(n: nat): seq<Stage> {
    if n == 0 then [] else TokenStages(n - 1) + [DeployTokens(n - 1)]
  }

  /** The location of the deployed contract is needed unless the contract was there before. */
  predicate NeedsContract(s: Stack) {
    s.multiparty && s.contractAddress == ""
  }

  function DeployStages(s: Stack): seq<Stage> {
    (if TokenFactoriesDisabled(s.provider) then [] else TokenStages(|s.tokenProviders|))
    + if NeedsContract(s) then [DeployFireFly] else []
  }

  function MemberStages(s: Stack, n: nat): seq<Stage> {
    if n == 0 then []
    else
      MemberStages(s, n - 1) + (if NeedsContract(s) then [ReadLocation(n - 1)] else [])
      + [PatchConfig(n - 1), CreateCoreVolume(n - 1), MkdirCore(n - 1)]
  }

  function RestartStages(): seq<Stage> {
    [WriteEnabled, StopAll] + Startup(1) + [NodesUp(0)]
  }

  function InitTokensStages(n: nat): seq<Stage> {
    if n == 0 then [] else InitTokensStages(n - 1) + [InitTokens(n - 1)]
  }

  /** With a contract that was there before setup ends early: identities are left to the user, the token services are
      not initialized and the state is not saved. */
  function FinalStages(s: Stack): seq<Stage> {
    if s.multiparty && s.contractAddress != "" then []
    else (if s.multiparty then [Register] else []) + InitTokensStages(|s.tokenProviders|) + [WriteState]
  }

  function SetupStages(s: Stack): seq<Stage> {
    PrepareStages(s) + (Startup(0) + (DeployStages(s) + (MemberStages(s, |s.members|) + (RestartStages() + FinalStages(s)))))
  }

  /** The accounts of the members that have one. */
  function MemberAccounts(members: seq<Organization>): seq<Option<Account>> {
    if members == [] then []
    else
      var last := members[|members| - 1].account;
      MemberAccounts(members[..|members| - 1]) + if last.Some? then [last] else []
  }

  function BeforeSetup(s: Stack, w: World): World {
    w.(accounts := w.accounts + MemberAccounts(s.members), contract := None)
  }

  function Setup(s: Stack, w: World, env: Stage -> Outcome): (World, Status)
    requires ValidStack(s)
  {
    var (w', status) := Run(s, BeforeSetup(s, w), SetupStages(s), env);
    (if status == Completed then w'.(disk := w'.disk.(completed := true)) else w', status)
  }

  // ---------------------------------------------------------------- removing volumes

  function PlanVolumeList(plan: seq<Definition>): seq<VolumeId> {
    if plan == [] then [] else PlanVolumeList(plan[..|plan| - 1]) + plan[|plan| - 1].volumes
  }

  /** The volumes removeVolumes goes through, with repetitions. The order of those in the compose file is that of a Go
      map and is given from outside. */
  function VolumeList(s: Stack, order: seq<VolumeId>): seq<VolumeId>
    requires ValidStack(s)
  {
    PlanVolumeList(ExtraPlan(s)) + order
  }

  predicate IsOrder(s: Stack, order: seq<VolumeId>) {
    SetOf(order) == BaseVolumes(s)
  }

  /** Removing a volume that does not exist is no error. */
  function RemoveList(volumes: set<VolumeId>, list: seq<VolumeId>, env: Stage -> Outcome): (set<VolumeId>, Status) {
    if list == [] then (volumes, Completed)
    else
      var v := list[0];
      if v !in volumes then RemoveList(volumes, list[1..], env)
      else
        var outcome := env(RemoveVolume(v));
        if outcome.Failed? then (volumes, Stopped(RemoveVolume(v), outcome.error))
        else RemoveList(volumes - {v}, list[1..], env)
  }

  // ---------------------------------------------------------------- commands

  /** Every provider's own Reset does nothing. */
  function ResetStages(): seq<Stage> {
    [Down, RemoveRuntime]
  }

  function Reset(s: Stack, w: World, order: seq<VolumeId>, env: Stage -> Outcome): (World, Status)
    requires ValidStack(s)
  {
    var (w', status) := Run(s, w, ResetStages(), env);
    if status != Completed then (w', status)
    else
      var (volumes, status') := RemoveList(w'.disk.volumes, VolumeList(s, order), env);
      (w'.(disk := w'.disk.(volumes := volumes)), status')
  }

  /** A stack that has a runtime directory is only started again. */
  function Restart(s: Stack, w: World, env: Stage -> Outcome): (World, Status)
    requires ValidStack(s)
  {
    Run(s, w, AgainStages(), env)
  }

  function Checks(): seq<Stage> {
    [CheckPorts, Stat]
  }

  function AgainStages(): seq<Stage> {
    Startup(2) + [NodesUp(1)]
  }

  datatype Ending =
    | Running
    | NotStarted(error: string)
    | RolledBack(error: string)
    | RollbackFailed(error: string, other: string)
    | Crashed

  function EndingOf(status: Status): Ending {
    match status
    case Completed => Running
    case Stopped(_, error) => NotStarted(error)
    case Panicked => Crashed
  }

  /** StartStack after setup came to an end of some kind. */
  function AfterSetup(s: Stack, w: World, status: Status, noRollback: bool, order: seq<VolumeId>,
                      env: Stage -> Outcome): (World, Ending)
    requires ValidStack(s)
  {
    match status
    case Completed => var (w', status') := Run(s, w, [NodesUp(1)], env); (w', EndingOf(status'))
    case Panicked => (w, Crashed)
    case Stopped(_, error) =>
      if noRollback then (w, NotStarted(error))
      else
        var (w', status') := Reset(s, w, order, env);
        (w', if status'.Stopped? then RollbackFailed(error, status'.error) else RolledBack(error))
  }

  function Start(s: Stack, w: World, noRollback: bool, order: seq<VolumeId>, env: Stage -> Outcome): (World, Ending)
    requires ValidStack(s)
  {
    var (w0, status) := Run(s, w, Checks(), env);
    if status != Completed then (w0, EndingOf(status))
    else if w0.disk.runtime then
      var (w', status') := Restart(s, w0, env);
      (w', EndingOf(status'))
    else
      var (w', status') := Setup(s, w0, env);
      AfterSetup(s, w', status', noRollback, order, env)
  }

  /** What LoadStack finds in a state file that can be read. */
  function Load(d: Disk): Option<World> {
    if !d.runtime || d.state.NoState? then Some(World(d, [], [], None))
    else if d.state.State? then Some(World(d, d.state.accounts, d.state.deployed, None))
    else None
  }

  /** One run of the CLI. */
  datatype Command =
    | StartCommand(noRollback: bool, order: seq<VolumeId>, env: Stage -> Outcome)
    | StopCommand(env: Stage -> Outcome)
    | ResetCommand(order: seq<VolumeId>, env: Stage -> Outcome)

  /** Every command loads the stack first and does nothing if that fails. */
  function Execute(s: Stack, d: Disk, c: Command): Disk
    requires ValidStack(s)
  {
    match Load(d)
    case None => d
    case Some(w) =>
      match c
      case StartCommand(noRollback, order, env) => Start(s, w, noRollback, order, env).0.disk
      case StopCommand(env) => Run(s, w, [StopAll], env).0.disk
      case ResetCommand(order, env) =>
        var (w', status) := Run(s, w, [StopAll], env);
        if status != Completed then w'.disk else Reset(s, w', order, env).0.disk
  }

  function ExecuteAll(s: Stack, d: Disk, commands: seq<Command>): Disk
    requires ValidStack(s)
  {
    if commands == [] then d
    else Execute(s, ExecuteAll(s, d, commands[..|commands| - 1]), commands[|commands| - 1])
  }
}
