/**
 * The Postgres manager as a state machine (lib/postgresMgr.js).
 *
 * The state is what the manager keeps in its fields plus the world it acts on: the data directory's configuration
 * files, and the Postgres processes with the configuration they have loaded. One event is one callback of the source:
 * between any two steps of a pipeline, any background step or process exit may come.
 */
module PgMachine {
  import opened Wrappers
  import opened PgSettings
  import opened ReplicationCheck

  // --- What the manager is asked for

  datatype Peer = Peer(pgUrl: string, backupUrl: string)

  datatype Role = Primary | Sync | Async | NoRole

  datatype Config = Config(role: Role, upstream: Option<Peer>, downstream: Option<Peer>)

  /** The assertions at the top of `reconfigure`. */
  predicate WellFormed(config: Config, oneNodeWriteMode: bool) {
    match config.role
    case Primary => config.upstream.None? && (oneNodeWriteMode ==> config.downstream.None?)
    case NoRole => config.upstream.None? && config.downstream.None?
    case _ => config.upstream.Some? && config.downstream.None?
  }

  // --- Pipelines

  /** The single steps that the pipelines are made of. */
  datatype Instr =
    | CancelTransitioning
    | AwaitDone(id: nat)               // a cancelled background check has yet to emit 'done'
    | StopPostgres
    | AssertDataset
    | StatDataDir
    | ChownDataDir
    | ChmodDataDir
    | InitDb
    | DeleteRecoveryConf
    | ResolveVersionedPaths
    | UpdateRecoveryConf
    | UpdatePgConf(updates: Conf)
    | CheckHealth
    | SpawnPostgres
    | AwaitStart
    | CreateSnapshot
    | Sighup
    | StartReplCheck(stdby: string)
    | RestoreFromPrimary
    | RestoreBackup
    | DestroyBackup

  /** The rest of a pipeline: after a step, where to go on success and where on an error. */
  datatype Code = Done | Fail | Step(instr: Instr, next: Code, otherwise: Code) {
    predicate AwaitsHere() {
      Step? && instr.AwaitDone?
    }
  }

  /** `_start`. */
  function StartCode(next: Code, otherwise: Code): Code {
    Step(SpawnPostgres, Step(AwaitStart, next, otherwise), otherwise)
  }

  /** `_restart`: a healthy database is stopped first. */
  function RestartCode(next: Code, otherwise: Code): Code {
    Step(CheckHealth,
         Step(StopPostgres, StartCode(next, otherwise), otherwise),
         StartCode(next, otherwise))
  }

  /** The read-only setting that a primary starts with, unless in one-node-write mode. */
  function PrimaryUpdates(oneNodeWriteMode: bool): Conf {
    if oneNodeWriteMode then map[] else map[READ_ONLY := "on"]
  }

  function StandbyUpdates(): Conf {
    map[SYNCHRONOUS_COMMIT := "off"]
  }

  /** What is written once a standby has caught up: it is named, and the read-only setting is dropped. */
  function EnableWritesUpdates(stdby: string): Conf {
    map[SYNCHRONOUS_STANDBY_NAMES := FormatStandbyName(stdby)]
  }

  /** Without a standby, or with an empty name for it, there is nothing to check. */
  function StartReplCheckCode(stdby: Option<string>): Code {
    if stdby in {None, Some("")} then Done else Step(StartReplCheck(stdby.value), Done, Fail)
  }

  /** `_primary`, with the steps of `_initDb` in line. */
  function PrimaryCode(stdby: Option<string>, oneNodeWriteMode: bool): Code {
    Step(CancelTransitioning,
    Step(StopPostgres,
    Step(AssertDataset,
    Step(StatDataDir,
    Step(ChownDataDir,
    Step(ChmodDataDir,
    Step(InitDb,
    Step(DeleteRecoveryConf,
    Step(UpdatePgConf(PrimaryUpdates(oneNodeWriteMode)),
    RestartCode(
      Step(CreateSnapshot, StartReplCheckCode(stdby), Fail),
    Fail), Fail), Fail), Fail), Fail), Fail), Fail), Fail), Fail), Fail)
  }

  /** `_updateStandby`, outside one-node-write mode. */
  function UpdateStandbyCode(stdby: string): Code {
    var named: Conf := if stdby == "" then map[] else EnableWritesUpdates(stdby);
    Step(CancelTransitioning,
    Step(UpdatePgConf(named[READ_ONLY := "on"]),
    Step(Sighup,
    StartReplCheckCode(Some(stdby)),
    Fail), Fail), Fail)
  }

  /** Writing recovery.conf and postgresql.conf for a standby. */
  function StandbyConfCode(next: Code, otherwise: Code): Code {
    Step(ResolveVersionedPaths,
    Step(UpdateRecoveryConf,
    Step(UpdatePgConf(StandbyUpdates()),
    next,
    otherwise), otherwise), otherwise)
  }

  /** The part of `_standby` that follows a failed attempt to start as a standby. */
  function RestoreCode(): Code {
    var rollBack := Step(RestoreBackup, Fail, Fail);
    Step(RestoreFromPrimary,
      StandbyConfCode(
        RestartCode(Step(DestroyBackup, Done, Fail), rollBack),
        Fail),
      rollBack)
  }

  /** `_standby`. */
  function StandbyCode(): Code {
    Step(CancelTransitioning,
    Step(StopPostgres,
    Step(AssertDataset,
    StandbyConfCode(RestartCode(Done, RestoreCode()), RestoreCode()),
    Fail), Fail), Fail)
  }

  function StopCode(): Code {
    Step(StopPostgres, Done, Fail)
  }

  // --- State

  /**
   * A Postgres process: the configuration it has loaded, whether it was started with a recovery.conf, and whether its
   * exit would be heard: the listener that `_start` registers is taken off by a stop that fails.
   */
  datatype Process = Process(conf: Conf, recovery: bool, heard: bool)

  /** postgresql.conf in the data directory, and whether a recovery.conf is there. */
  datatype Disk = Disk(conf: Conf, recovery: bool)

  /** `_waitForStandby`: one background pipeline. */
  datatype Background =
    | NotStarted(stdby: string)
    | Checking(stdby: string, check: Check)
    | EnablingWrites(stdby: string)
    | Signalling(stdby: string)

  /** Which call the foreground pipeline will answer; a reconfiguration may only change the standby. */
  datatype Job =
    | Starting(config: Config)
    | Stopping
    | Reconfiguring(config: Config)
    | ChangingStandby(config: Config)

  /** The callback of a call: made without an error or with one. */
  datatype Answer = Answer(job: Job, ok: bool)

  datatype Foreground = NoPipeline | Pipeline(job: Job, code: Code)

  datatype State = State(
    oneNodeWriteMode: bool,
    replicationTimeout: int,
    // the manager's fields
    running: bool,
    transitioning: bool,
    pgConfig: Option<Config>,
    appliedPgConfig: bool,
    additionalPgOptions: Conf,
    transitionFunc: Option<nat>,       // the background check that a cancel would go to
    // pipelines in progress
    foreground: Foreground,
    background: map<nat, Background>,
    nextId: nat,
    answer: Option<Answer>,            // the last callback made at the end of a pipeline
    // the world
    postgres: Option<Process>,
    orphans: seq<Process>,             // processes whose handle was overwritten by a second spawn
    disk: Disk,
    crashed: bool)                     // an uncaught exception has ended the manager

  predicate Initial(s: State) {
    && !s.running && !s.transitioning && s.pgConfig.None? && !s.appliedPgConfig
    && s.transitionFunc.None? && s.foreground.NoPipeline? && s.background == map[] && s.answer.None?
    && s.postgres.None? && s.orphans == [] && !s.crashed
  }

  /**
   * What the outside world contributes to one step: whether it succeeds, the shipped file, what a failed write or a
   * replaced dataset leaves behind, the options that the tunables file gives then (see PgSettings.GetTunables), and
   * whether a failed start leaves the process alive.
   */
  datatype Io = Io(ok: bool, shipped: Conf, left: Disk, options: Conf, alive: bool)

  datatype Event =
    | Start
    | Stop
    | Reconfigure(config: Config)
    | Advance(io: Io)                  // the current step of the foreground pipeline ends
    | CheckStarts(id: nat, now: int)
    | CheckPolls(id: nat, poll: Poll)
    | WritesConf(id: nat, io: Io)
    | Signals(id: nat)
    | PostgresExits                    // by itself
    | StrayStop(ok: bool)              // a health query left from an earlier start fails late, which stops Postgres

  // --- Background steps

  /** `cancel`: a running check emits 'done', so its pipeline goes on; one not yet started is cancelled later. */
  function Cancelled(background: map<nat, Background>, id: nat): map<nat, Background> {
    if id in background && background[id].Checking?
    then background[id := EnablingWrites(background[id].stdby)]
    else background
  }

  /** The background pipeline ends and emits 'done', which clears `_transitionFunc` and resumes a waiting canceller. */
  function BackgroundDone(s: State, id: nat, ok: bool): (s': State)
    ensures s'.background == s.background - {id} && s'.transitionFunc.None?
    ensures s'.postgres == s.postgres && s'.orphans == s.orphans && s'.disk == s.disk && s'.crashed == s.crashed
  {
    var s' := s.(background := s.background - {id}, transitionFunc := None);
    match s.foreground
    case Pipeline(_, Step(AwaitDone(awaited), next, otherwise)) =>
      if awaited == id then Jump(s', if ok then next else otherwise) else s'
    case _ => s'
  }

  function StartCheck(s: State, id: nat, now: int): State {
    if id in s.background && s.background[id].NotStarted?
    then s.(background := s.background[id := Checking(s.background[id].stdby, Check(None, now))])
    else s
  }

  function PollCheck(s: State, id: nat, poll: Poll): State {
    if id in s.background && s.background[id].Checking? then
      var stdby := s.background[id].stdby;
      match CheckStep(s.background[id].check, s.replicationTimeout, poll)
      case Continue(check) => s.(background := s.background[id := Checking(stdby, check)])
      case CaughtUp => s.(background := s.background[id := EnablingWrites(stdby)])
      case TimedOut => BackgroundDone(s, id, false)
    else s
  }

  function WriteEnablingConf(s: State, id: nat, io: Io): State {
    if id in s.background && s.background[id].EnablingWrites? then
      var stdby := s.background[id].stdby;
      if io.ok then
        s.(disk := s.disk.(conf := UpdatedPgConf(io.shipped, s.additionalPgOptions, EnableWritesUpdates(stdby))),
           background := s.background[id := Signalling(stdby)])
      else
        BackgroundDone(s.(disk := s.disk.(conf := io.left.conf)), id, false)
    else s
  }

  /** SIGHUP makes the process load the file on disk; without a process the manager dereferences null. */
  function Hup(s: State): State {
    if s.postgres.None? then s.(crashed := true)
    else s.(postgres := Some(s.postgres.value.(conf := s.disk.conf)))
  }

  function SignalCheck(s: State, id: nat): State {
    if id in s.background && s.background[id].Signalling? then
      var s' := Hup(s);
      if s'.crashed then s' else BackgroundDone(s', id, true)
    else s
  }

  // --- Foreground steps

  /** The manager's own fields may differ, but nothing about Postgres, the disk or background checks. */
  predicate SameWorld(s: State, s': State) {
    && s'.postgres == s.postgres && s'.orphans == s.orphans && s'.disk == s.disk
    && s'.background == s.background && s'.transitionFunc == s.transitionFunc && s'.nextId == s.nextId
    && s'.crashed == s.crashed && s'.oneNodeWriteMode == s.oneNodeWriteMode
  }

  /** What a call that succeeds leaves in the manager's fields. */
  function Settled(s: State, job: Job): (s': State)
    ensures SameWorld(s, s') && s'.foreground == s.foreground && s'.transitioning == s.transitioning && s'.answer == s.answer
  {
    match job
    case Stopping => s.(running := false)
    case Starting(config) => s.(running := true, pgConfig := Some(config), appliedPgConfig := true)
    case _ => s.(pgConfig := Some(job.config), appliedPgConfig := true)
  }

  function Finish(s: State, job: Job, ok: bool): (s': State)
    ensures SameWorld(s, s') && s'.foreground.NoPipeline? && !s'.transitioning && s'.answer == Some(Answer(job, ok))
  {
    var s' := s.(transitioning := false, foreground := NoPipeline, answer := Some(Answer(job, ok)));
    if ok then Settled(s', job) else s'
  }

  /** Continue the foreground pipeline at `code`. */
  function Jump(s: State, code: Code): (s': State)
    ensures SameWorld(s, s')
  {
    match s.foreground
    case NoPipeline => s
    case Pipeline(job, _) =>
      match code
      case Done => Finish(s, job, true)
      case Fail => Finish(s, job, false)
      case _ => s.(foreground := Pipeline(job, code))
  }

  /** Some steps read the tunables file anew. */
  function OptionsAfter(s: State, instr: Instr, io: Io): Conf {
    if io.ok && (instr.InitDb? || instr.ResolveVersionedPaths? || instr.SpawnPostgres?) then io.options
    else s.additionalPgOptions
  }

  /** A process whose handle a spawn overwrites is lost. */
  function OrphansAfter(s: State, instr: Instr, io: Io): seq<Process> {
    if io.ok && instr.SpawnPostgres? && s.postgres.Some? then s.orphans + [s.postgres.value] else s.orphans
  }

  function DiskAfter(s: State, instr: Instr, io: Io): Disk {
    match instr
    case AssertDataset => io.left
    case RestoreFromPrimary => io.left
    case RestoreBackup => io.left
    case InitDb => if io.ok then s.disk.(conf := io.shipped) else s.disk
    case DeleteRecoveryConf => if io.ok then s.disk.(recovery := false) else s.disk
    case UpdateRecoveryConf => s.disk.(recovery := io.ok || io.left.recovery)
    case UpdatePgConf(updates) =>
      s.disk.(conf := if io.ok then UpdatedPgConf(io.shipped, s.additionalPgOptions, updates) else io.left.conf)
    case _ => s.disk
  }

  /** What a failed stop leaves, also one at the end of a start that fails. */
  function Unheard(postgres: Option<Process>): Option<Process> {
    if postgres.None? then None else Some(postgres.value.(heard := false))
  }

  function PostgresAfter(s: State, instr: Instr, io: Io): Option<Process> {
    match instr
    case StopPostgres => if io.ok then None else Unheard(s.postgres)
    case SpawnPostgres => if io.ok then Some(Process(s.disk.conf, s.disk.recovery, true)) else s.postgres
    case AwaitStart => if io.ok then s.postgres else if io.alive then Unheard(s.postgres) else None
    case Sighup => if s.postgres.None? then None else Some(s.postgres.value.(conf := s.disk.conf))
    case _ => s.postgres
  }

  /** Whether the pipeline takes the step as a success: some errors are ignored. */
  function Passes(s: State, instr: Instr, io: Io): bool {
    match instr
    case StopPostgres => s.postgres.None? || io.ok
    case CreateSnapshot => true
    case Sighup => true
    case StartReplCheck(_) => true
    case RestoreBackup => true
    case _ => io.ok
  }

  /** The steps that rewrite or replace files of the data directory. */
  predicate OnDisk(instr: Instr) {
    instr.AssertDataset? || instr.RestoreFromPrimary? || instr.RestoreBackup? || instr.InitDb?
    || instr.DeleteRecoveryConf? || instr.UpdateRecoveryConf? || instr.UpdatePgConf?
  }

  /** The steps that start, stop or signal Postgres. */
  predicate OnPostgres(instr: Instr) {
    instr.StopPostgres? || instr.SpawnPostgres? || instr.AwaitStart? || instr.Sighup?
  }

  function WithCheck(s: State, stdby: string): State {
    s.(background := s.background[s.nextId := NotStarted(stdby)], transitionFunc := Some(s.nextId), nextId := s.nextId + 1)
  }

  /** One step's effect. SIGHUP without a process is a crash. */
  function Perform(s: State, instr: Instr, io: Io): (s': State)
    ensures s'.foreground == s.foreground && s'.transitioning == s.transitioning && s'.pgConfig == s.pgConfig
    ensures s'.running == s.running && s'.appliedPgConfig == s.appliedPgConfig
  {
    if instr.StartReplCheck? then WithCheck(s, instr.stdby)
    else
      s.(additionalPgOptions := OptionsAfter(s, instr, io),
         orphans := OrphansAfter(s, instr, io),
         postgres := PostgresAfter(s, instr, io),
         disk := DiskAfter(s, instr, io),
         crashed := s.crashed || (instr.Sighup? && s.postgres.None?))
  }

  lemma StepElsewhere(s: State, instr: Instr, io: Io)
    requires !instr.StartReplCheck? && !OnPostgres(instr)
    ensures Perform(s, instr, io) == s.(additionalPgOptions := OptionsAfter(s, instr, io), disk := DiskAfter(s, instr, io))
    ensures !OnDisk(instr) ==> DiskAfter(s, instr, io) == s.disk
  {
  }

  function AdvancePipeline(s: State, io: Io): State {
    match s.foreground
    case Pipeline(job, Step(instr, next, otherwise)) =>
      (match instr
       case CancelTransitioning =>
         if s.transitionFunc.None? then Jump(s, next)
         else
           var id := s.transitionFunc.value;
           s.(background := Cancelled(s.background, id),
              foreground := Pipeline(job, Step(AwaitDone(id), next, otherwise)))
       case AwaitDone(id) =>            // the timer that retries a cancel which came too early
         s.(background := Cancelled(s.background, id))
       case _ =>
         var s' := Perform(s, instr, io);
         if s'.crashed then s' else Jump(s', if Passes(s, instr, io) then next else otherwise))
    case _ => s
  }

  // --- Calls

  function BeginStart(s: State): State {
    if s.transitioning || s.running || s.pgConfig.None? || s.pgConfig.value.role.NoRole? then s
    else Begin(s, Starting(s.pgConfig.value), FullCode(s, s.pgConfig.value))
  }

  function BeginStop(s: State): State {
    if s.transitioning || !s.running then s
    else Begin(s, Stopping, StopCode())
  }

  function Begin(s: State, job: Job, code: Code): State {
    s.(transitioning := true, foreground := Pipeline(job, code))
  }

  /** The end of `_reconfigure`: a start, promotion or full reconfiguration. */
  function FullCode(s: State, config: Config): Code {
    if config.role.Primary? then
      PrimaryCode(if config.downstream.Some? then Some(config.downstream.value.pgUrl) else None, s.oneNodeWriteMode)
    else StandbyCode()
  }

  function BeginReconfigure(s: State, config: Config): State {
    if !WellFormed(config, s.oneNodeWriteMode) || s.transitioning then s
    else if !s.running then s.(pgConfig := Some(config), appliedPgConfig := false)
    else if config.role.NoRole? then
      s.(pgConfig := Some(config), appliedPgConfig := true)
    else if s.postgres.Some? && s.pgConfig.Some? && s.pgConfig.value.role.Primary? && config.role.Primary? then
      if config.downstream.None? then s.(transitioning := true, crashed := true)
      else Begin(s, ChangingStandby(config), UpdateStandbyCode(config.downstream.value.pgUrl))
    else Begin(s, Reconfiguring(config), FullCode(s, config))
  }

  // --- Runs

  /** An exit of the process while a start awaits it is a failure of that step, not an event of its own. */
  predicate AwaitingStart(s: State) {
    s.foreground.Pipeline? && s.foreground.code.Step? && s.foreground.code.instr.AwaitStart?
  }

  /** A stop listens itself: an exit while it waits is what it waits for. */
  predicate StoppingNow(s: State) {
    s.foreground.Pipeline? && s.foreground.code.Step? && s.foreground.code.instr.StopPostgres?
  }

  /** An exit that no one waits for is emitted as an 'error', for which there is no listener. */
  function Exit(s: State): State {
    if s.postgres.None? || AwaitingStart(s) then s
    else if StoppingNow(s) then s.(postgres := None)
    else if s.postgres.value.heard then s.(postgres := None, crashed := true)
    else s    // not heard of: the manager goes on taking the process for alive
  }

  function StopStray(s: State, ok: bool): State {
    s.(postgres := if ok then None else Unheard(s.postgres))
  }

  function Next(s: State, e: Event): State {
    if s.crashed then s
    else
      match e
      case Start => BeginStart(s)
      case Stop => BeginStop(s)
      case Reconfigure(config) => BeginReconfigure(s, config)
      case Advance(io) => AdvancePipeline(s, io)
      case CheckStarts(id, now) => StartCheck(s, id, now)
      case CheckPolls(id, poll) => PollCheck(s, id, poll)
      case WritesConf(id, io) => WriteEnablingConf(s, id, io)
      case Signals(id) => SignalCheck(s, id)
      case PostgresExits => Exit(s)
      case StrayStop(ok) => StopStray(s, ok)
  }

  /** The state after a series of events. */
  function Run(s: State, events: seq<Event>): State
    decreases |events|
  {
    if events == [] then s else Run(Next(s, events[0]), events[1..])
  }
}
