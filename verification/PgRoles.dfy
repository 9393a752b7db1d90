/** What a call has brought about once it is answered with success, one-node-write mode off. */
module PgRoles {
  import opened Wrappers
  import opened PgSettings
  import opened ReplicationCheck
  import opened PgMachine
  import opened PgSafety
  import opened PgWrites

  /** What a call is to bring about; a primary that is running already may only change its standby. */
  datatype Goal = AsPrimary | AsStandby | AsPrimaryOf(stdby: string) | AsStopped

  /** A primary comes up read-only; a standby does not wait for others when it commits; no process is right when stopped. */
  predicate RightConf(goal: Goal, conf: Conf) {
    match goal
    case AsPrimary => ReadOnly(conf)
    case AsStandby => Lookup(conf, SYNCHRONOUS_COMMIT) == Some("off")
    case AsPrimaryOf(stdby) => ReadOnly(conf) && (stdby != "" ==> NamesStandby(conf, stdby))
    case AsStopped => false
  }

  predicate RightRecovery(goal: Goal, recovery: bool) {
    goal.AsPrimaryOf? || recovery == goal.AsStandby?
  }

  predicate RightProcess(goal: Goal, p: Process) {
    RightConf(goal, p.conf) && RightRecovery(goal, p.recovery)
  }

  // --- Pipelines that reach their goal

  /** What has been achieved: on disk, and in the process, if there is one. */
  datatype Reached = Reached(conf: bool, recovery: bool, process: bool)

  const NOT_YET := Reached(false, false, false)

  predicate AtLeast(r: Reached, q: Reached) {
    (q.conf ==> r.conf) && (q.recovery ==> r.recovery) && (q.process ==> r.process)
  }

  function Then(goal: Goal, instr: Instr, r: Reached, ok: bool): Reached {
    match instr
    case CancelTransitioning => NOT_YET
    case AwaitDone(_) => NOT_YET
    case StopPostgres => if ok then r.(process := true) else r
    case AssertDataset => r.(conf := false, recovery := false)
    case RestoreFromPrimary => r.(conf := false, recovery := false)
    case RestoreBackup => r.(conf := false, recovery := false)
    case InitDb => r.(conf := false)
    case DeleteRecoveryConf => if ok then r.(recovery := goal.AsPrimary?) else r
    case UpdateRecoveryConf => r.(recovery := ok && goal.AsStandby?)
    case UpdatePgConf(updates) => r.(conf := ok && RightConf(goal, updates))
    case SpawnPostgres => if ok then r.(process := r.conf && r.recovery) else r
    case Sighup => r.(process := r.conf && (goal.AsPrimaryOf? || r.process))
    case _ => r
  }

  /** Every path to success reaches the goal. */
  predicate Delivers(goal: Goal, code: Code, r: Reached) {
    match code
    case Done => r.process
    case Fail => true
    case Step(instr, next, otherwise) =>
      Delivers(goal, next, Then(goal, instr, r, true)) && Delivers(goal, otherwise, Then(goal, instr, r, false))
  }

  lemma ThenMore(goal: Goal, instr: Instr, r: Reached, q: Reached, ok: bool)
    requires AtLeast(q, r)
    ensures AtLeast(Then(goal, instr, q, ok), Then(goal, instr, r, ok))
  {
  }

  lemma {:induction false} DeliversMore(goal: Goal, code: Code, r: Reached, q: Reached)
    requires Delivers(goal, code, r) && AtLeast(q, r)
    ensures Delivers(goal, code, q)
  {
    if code.Step? {
      ThenMore(goal, code.instr, r, q, true);
      ThenMore(goal, code.instr, r, q, false);
      DeliversMore(goal, code.next, Then(goal, code.instr, r, true), Then(goal, code.instr, q, true));
      DeliversMore(goal, code.otherwise, Then(goal, code.instr, r, false), Then(goal, code.instr, q, false));
    }
  }

  /** Build a pipeline from its last step backwards; `p` and `q` are what its two continuations need. */
  lemma StepReaches(goal: Goal, instr: Instr, next: Code, otherwise: Code, r: Reached, p: Reached, q: Reached)
    requires AtLeast(Then(goal, instr, r, true), p) && Delivers(goal, next, p)
    requires AtLeast(Then(goal, instr, r, false), q) && Delivers(goal, otherwise, q)
    ensures Delivers(goal, Step(instr, next, otherwise), r)
  {
    DeliversMore(goal, next, p, Then(goal, instr, r, true));
    DeliversMore(goal, otherwise, q, Then(goal, instr, r, false));
  }

  lemma OrFailReaches(goal: Goal, instr: Instr, next: Code, r: Reached, p: Reached)
    requires AtLeast(Then(goal, instr, r, true), p) && Delivers(goal, next, p)
    ensures Delivers(goal, Step(instr, next, Fail), r)
  {
    StepReaches(goal, instr, next, Fail, r, p, NOT_YET);
  }

  lemma RestartDelivers(goal: Goal, next: Code, otherwise: Code, r: Reached)
    requires r.conf && r.recovery
    requires Delivers(goal, next, r.(process := true)) && Delivers(goal, otherwise, r.(process := false))
    ensures Delivers(goal, RestartCode(next, otherwise), r)
  {
    var up, down := r.(process := true), r.(process := false);
    StepReaches(goal, AwaitStart, next, otherwise, up, up, down);
    StepReaches(goal, SpawnPostgres, Step(AwaitStart, next, otherwise), otherwise, down, up, down);
    var start := StartCode(next, otherwise);
    StepReaches(goal, StopPostgres, start, otherwise, down, down, down);
    StepReaches(goal, CheckHealth, Step(StopPostgres, start, otherwise), start, r, down, down);
  }

  lemma StandbyConfDelivers(next: Code, otherwise: Code, r: Reached)
    requires Delivers(AsStandby, next, Reached(true, true, false)) && Delivers(AsStandby, otherwise, NOT_YET)
    ensures Delivers(AsStandby, StandbyConfCode(next, otherwise), r)
  {
    var written := Reached(false, true, false);
    var c := Step(UpdatePgConf(StandbyUpdates()), next, otherwise);
    StepReaches(AsStandby, UpdatePgConf(StandbyUpdates()), next, otherwise, written, Reached(true, true, false), NOT_YET);
    StepReaches(AsStandby, UpdateRecoveryConf, c, otherwise, NOT_YET, written, NOT_YET);
    StepReaches(AsStandby, ResolveVersionedPaths, Step(UpdateRecoveryConf, c, otherwise), otherwise, r, NOT_YET, NOT_YET);
  }

  lemma ReceivedDelivers(rollBack: Code)
    requires Delivers(AsStandby, rollBack, NOT_YET)
    ensures Delivers(AsStandby, StandbyConfCode(RestartCode(Step(DestroyBackup, Done, Fail), rollBack), Fail), NOT_YET)
  {
    var destroy := Step(DestroyBackup, Done, Fail);
    var written := Reached(true, true, false);
    OrFailReaches(AsStandby, DestroyBackup, Done, written.(process := true), written.(process := true));
    DeliversMore(AsStandby, rollBack, NOT_YET, written);
    RestartDelivers(AsStandby, destroy, rollBack, written);
    StandbyConfDelivers(RestartCode(destroy, rollBack), Fail, NOT_YET);
  }

  lemma RestoreDelivers()
    ensures Delivers(AsStandby, RestoreCode(), NOT_YET)
  {
    var rollBack := Step(RestoreBackup, Fail, Fail);
    OrFailReaches(AsStandby, RestoreBackup, Fail, NOT_YET, NOT_YET);
    ReceivedDelivers(rollBack);
    StepReaches(AsStandby, RestoreFromPrimary, StandbyConfCode(RestartCode(Step(DestroyBackup, Done, Fail), rollBack), Fail),
                rollBack, NOT_YET, NOT_YET, NOT_YET);
  }

  lemma StoppedDelivers(goal: Goal, code: Code)
    requires Delivers(goal, code, NOT_YET.(process := true))
    ensures Delivers(goal, Step(CancelTransitioning, Step(StopPostgres, Step(AssertDataset, code, Fail), Fail), Fail), NOT_YET)
  {
    var r := NOT_YET.(process := true);
    OrFailReaches(goal, AssertDataset, code, r, r);
    OrFailReaches(goal, StopPostgres, Step(AssertDataset, code, Fail), NOT_YET, r);
    OrFailReaches(goal, CancelTransitioning, Step(StopPostgres, Step(AssertDataset, code, Fail), Fail), NOT_YET, NOT_YET);
  }

  lemma StandbyStartDelivers(restore: Code)
    requires Delivers(AsStandby, restore, NOT_YET)
    ensures Delivers(AsStandby, StandbyConfCode(RestartCode(Done, restore), restore), NOT_YET.(process := true))
  {
    DeliversMore(AsStandby, restore, NOT_YET, Reached(true, true, false));
    RestartDelivers(AsStandby, Done, restore, Reached(true, true, false));
    StandbyConfDelivers(RestartCode(Done, restore), restore, NOT_YET.(process := true));
  }

  lemma StandbyDelivers()
    ensures Delivers(AsStandby, StandbyCode(), NOT_YET)
  {
    RestoreDelivers();
    StandbyStartDelivers(RestoreCode());
    StoppedDelivers(AsStandby, StandbyConfCode(RestartCode(Done, RestoreCode()), RestoreCode()));
  }

  lemma ReplCheckDelivers(stdby: Option<string>)
    ensures Delivers(AsPrimary, Step(CreateSnapshot, StartReplCheckCode(stdby), Fail), Reached(true, true, true))
  {
    var r := Reached(true, true, true);
    if stdby.Some? {
      OrFailReaches(AsPrimary, StartReplCheck(stdby.value), Done, r, r);
    }
    OrFailReaches(AsPrimary, CreateSnapshot, StartReplCheckCode(stdby), r, r);
  }

  lemma ReadOnlyStartDelivers(stdby: Option<string>)
    ensures Delivers(AsPrimary,
      Step(DeleteRecoveryConf, Step(UpdatePgConf(PrimaryUpdates(false)),
        RestartCode(Step(CreateSnapshot, StartReplCheckCode(stdby), Fail), Fail), Fail), Fail), NOT_YET.(process := true))
  {
    ReplCheckDelivers(stdby);
    RestartDelivers(AsPrimary, Step(CreateSnapshot, StartReplCheckCode(stdby), Fail), Fail, Reached(true, true, true));
    ReadOnlyConfDelivers(RestartCode(Step(CreateSnapshot, StartReplCheckCode(stdby), Fail), Fail));
  }

  lemma ReadOnlyConfDelivers(code: Code)
    requires Delivers(AsPrimary, code, Reached(true, true, true))
    ensures Delivers(AsPrimary, Step(DeleteRecoveryConf, Step(UpdatePgConf(PrimaryUpdates(false)), code, Fail), Fail),
                     NOT_YET.(process := true))
  {
    var r := NOT_YET.(process := true);
    OrFailReaches(AsPrimary, UpdatePgConf(PrimaryUpdates(false)), code, r.(recovery := true), Reached(true, true, true));
    OrFailReaches(AsPrimary, DeleteRecoveryConf, Step(UpdatePgConf(PrimaryUpdates(false)), code, Fail), r, r.(recovery := true));
  }

  lemma DataDirDelivers(goal: Goal, code: Code, r: Reached)
    requires !r.conf && Delivers(goal, code, r)
    ensures Delivers(goal, Step(StatDataDir, Step(ChownDataDir, Step(ChmodDataDir, Step(InitDb, code, Fail), Fail), Fail), Fail), r)
  {
    OrFailReaches(goal, InitDb, code, r, r);
    OrFailReaches(goal, ChmodDataDir, Step(InitDb, code, Fail), r, r);
    OrFailReaches(goal, ChownDataDir, Step(ChmodDataDir, Step(InitDb, code, Fail), Fail), r, r);
    OrFailReaches(goal, StatDataDir, Step(ChownDataDir, Step(ChmodDataDir, Step(InitDb, code, Fail), Fail), Fail), r, r);
  }

  lemma PrimaryDelivers(stdby: Option<string>)
    ensures Delivers(AsPrimary, PrimaryCode(stdby, false), NOT_YET)
  {
    var start := Step(DeleteRecoveryConf, Step(UpdatePgConf(PrimaryUpdates(false)),
                   RestartCode(Step(CreateSnapshot, StartReplCheckCode(stdby), Fail), Fail), Fail), Fail);
    ReadOnlyStartDelivers(stdby);
    DataDirDelivers(AsPrimary, start, NOT_YET.(process := true));
    StoppedDelivers(AsPrimary, Step(StatDataDir, Step(ChownDataDir, Step(ChmodDataDir, Step(InitDb, start, Fail), Fail), Fail), Fail));
  }

  lemma UpdateDelivers(stdby: string)
    ensures Delivers(AsPrimaryOf(stdby), UpdateStandbyCode(stdby), NOT_YET)
  {
    var goal, named: Conf := AsPrimaryOf(stdby), if stdby == "" then map[] else EnableWritesUpdates(stdby);
    var check := StartReplCheckCode(Some(stdby));
    var loaded := NOT_YET.(conf := true, process := true);
    if stdby != "" {
      OrFailReaches(goal, StartReplCheck(stdby), Done, loaded, loaded);
    }
    OrFailReaches(goal, Sighup, check, NOT_YET.(conf := true), loaded);
    OrFailReaches(goal, UpdatePgConf(named[READ_ONLY := "on"]), Step(Sighup, check, Fail), NOT_YET, NOT_YET.(conf := true));
    OrFailReaches(goal, CancelTransitioning, Step(UpdatePgConf(named[READ_ONLY := "on"]), Step(Sighup, check, Fail), Fail),
                  NOT_YET, NOT_YET);
  }

  lemma StopDelivers()
    ensures Delivers(AsStopped, StopCode(), NOT_YET)
  {
    OrFailReaches(AsStopped, StopPostgres, Done, NOT_YET, NOT_YET.(process := true));
  }

  // --- The invariant

  function GoalOf(job: Job): Option<Goal> {
    match job
    case Stopping => Some(AsStopped)
    case ChangingStandby(config) =>
      if config.downstream.None? then None else Some(AsPrimaryOf(config.downstream.value.pgUrl))
    case _ =>
      match job.config.role
      case Primary => Some(AsPrimary)
      case NoRole => None
      case _ => Some(AsStandby)
  }

  /** The goal of the pipeline in progress. */
  function Wanted(s: State): Option<Goal> {
    if s.foreground.NoPipeline? then None else GoalOf(s.foreground.job)
  }

  function Present(goal: Goal, s: State): Reached {
    Reached(RightConf(goal, s.disk.conf), RightRecovery(goal, s.disk.recovery),
            s.postgres.Some? ==> RightProcess(goal, s.postgres.value))
  }

  /** A check that is alive may undo anything. */
  function Lasting(goal: Goal, s: State): Reached {
    if s.transitionFunc.Some? then NOT_YET else Present(goal, s)
  }

  predicate OnTheWay(s: State) {
    Wanted(s).Some? ==> Delivers(Wanted(s).value, s.foreground.code, Lasting(Wanted(s).value, s))
  }

  lemma ConfReaches(goal: Goal, s: State, instr: Instr, io: Io)
    ensures Then(goal, instr, Present(goal, s), Passes(s, instr, io)).conf ==> RightConf(goal, DiskAfter(s, instr, io).conf)
  {
    if instr.UpdatePgConf? && RightConf(goal, instr.updates) {
      UpdatesPrevail(goal, io.shipped, s.additionalPgOptions, instr.updates);
    }
  }

  lemma RecoveryReaches(goal: Goal, s: State, instr: Instr, io: Io)
    ensures Then(goal, instr, Present(goal, s), Passes(s, instr, io)).recovery ==>
              RightRecovery(goal, DiskAfter(s, instr, io).recovery)
  {
  }

  lemma ProcessReaches(goal: Goal, s: State, instr: Instr, io: Io)
    ensures Then(goal, instr, Present(goal, s), Passes(s, instr, io)).process && PostgresAfter(s, instr, io).Some? ==>
              RightProcess(goal, PostgresAfter(s, instr, io).value)
  {
  }

  /** After a step, at least what the analysis says is there. */
  lemma PerformReaches(goal: Goal, s: State, instr: Instr, io: Io)
    ensures AtLeast(Present(goal, Perform(s, instr, io)), Then(goal, instr, Present(goal, s), Passes(s, instr, io)))
  {
    ConfReaches(goal, s, instr, io);
    RecoveryReaches(goal, s, instr, io);
    ProcessReaches(goal, s, instr, io);
  }

  /** No tunable undoes what the role demands. */
  lemma UpdatesPrevail(goal: Goal, shipped: Conf, additional: Conf, updates: Conf)
    requires RightConf(goal, updates)
    ensures RightConf(goal, UpdatedPgConf(shipped, additional, updates))
  {
  }

  lemma JumpOnTheWay(s: State, code: Code)
    requires code.Step? && Wanted(s).Some? ==> Delivers(Wanted(s).value, code, Lasting(Wanted(s).value, s))
    requires s.foreground.Pipeline?
    ensures OnTheWay(Jump(s, code))
  {
  }

  lemma StepDelivers(s: State, io: Io)
    requires OnTheWay(s) && s.foreground.Pipeline? && s.foreground.code.Step? && Wanted(s).Some?
    requires !s.foreground.code.instr.CancelTransitioning? && !s.foreground.code.instr.AwaitDone?
    ensures var code := s.foreground.code;
      var s', ok := Perform(s, code.instr, io), Passes(s, code.instr, io);
      !s'.crashed ==> Delivers(Wanted(s).value, if ok then code.next else code.otherwise, Present(Wanted(s).value, s'))
  {
    var goal, code := Wanted(s).value, s.foreground.code;
    var s', ok := Perform(s, code.instr, io), Passes(s, code.instr, io);
    PerformReaches(goal, s, code.instr, io);
    DeliversMore(goal, code, Lasting(goal, s), Present(goal, s));
    if !s'.crashed {
      DeliversMore(goal, if ok then code.next else code.otherwise, Then(goal, code.instr, Present(goal, s), ok), Present(goal, s'));
    }
  }

  /** A pipeline that goes on after a step runs undisturbed. */
  lemma GoesOnQuietly(s: State, io: Io)
    requires Inv(s) && !s.crashed && s.foreground.Pipeline?
    requires !s.foreground.code.instr.CancelTransitioning? && !s.foreground.code.instr.AwaitDone?
    ensures var code := s.foreground.code;
      var s', ok := Perform(s, code.instr, io), Passes(s, code.instr, io);
      !s'.crashed && (if ok then code.next else code.otherwise).Step? ==> s'.transitionFunc.None?
  {
    var code := s.foreground.code;
    var ok := Passes(s, code.instr, io);
    PerformTeaches(s, code.instr, io);
    AfterQuiet(code.instr, Known(s), ok);
  }

  lemma AdvanceOnTheWay(s: State, io: Io)
    requires Inv(s) && OnTheWay(s) && !s.crashed
    ensures var s' := AdvancePipeline(s, io);
      s'.crashed || OnTheWay(s')
  {
    if s.foreground.Pipeline? {
      var code := s.foreground.code;
      if code.instr.CancelTransitioning? {
        if s.transitionFunc.None? {
          if Wanted(s).Some? {
            DeliversMore(Wanted(s).value, code.next, NOT_YET, Present(Wanted(s).value, s));
          }
          JumpOnTheWay(s, code.next);
        } else if Wanted(s).Some? {
          assert Delivers(Wanted(s).value, Step(AwaitDone(s.transitionFunc.value), code.next, code.otherwise), NOT_YET);
        }
      } else if !code.instr.AwaitDone? {
        var s', ok := Perform(s, code.instr, io), Passes(s, code.instr, io);
        if Wanted(s).Some? {
          StepDelivers(s, io);
        }
        GoesOnQuietly(s, io);
        if !s'.crashed {
          JumpOnTheWay(s', if ok then code.next else code.otherwise);
        }
      }
    }
  }

  lemma DoneOnTheWay(s: State, id: nat, ok: bool)
    requires Inv(s) && OnTheWay(s) && id in s.background
    ensures OnTheWay(BackgroundDone(s, id, ok))
  {
    var s' := s.(background := s.background - {id}, transitionFunc := None);
    if s.foreground.Pipeline? {
      var code := s.foreground.code;
      if Wanted(s).Some? {
        DeliversMore(Wanted(s).value, code, NOT_YET, Present(Wanted(s).value, s'));
        if code.instr.AwaitDone? {
          DeliversMore(Wanted(s).value, if ok then code.next else code.otherwise, NOT_YET, Present(Wanted(s).value, s'));
        }
      }
      if code.instr.AwaitDone? {
        JumpOnTheWay(s', if ok then code.next else code.otherwise);
      }
    }
  }

  /** The pipeline reaches the goal of its job, whatever is known when it begins. */
  lemma BeginOnTheWay(s: State, job: Job, code: Code)
    requires GoalOf(job).Some? ==> Delivers(GoalOf(job).value, code, NOT_YET)
    ensures OnTheWay(Begin(s, job, code))
  {
    var s' := Begin(s, job, code);
    if GoalOf(job).Some? {
      DeliversMore(GoalOf(job).value, code, NOT_YET, Lasting(GoalOf(job).value, s'));
    }
  }

  lemma FullCodeDelivers(s: State, config: Config)
    requires !s.oneNodeWriteMode && !config.role.NoRole?
    ensures Delivers(if config.role.Primary? then AsPrimary else AsStandby, FullCode(s, config), NOT_YET)
  {
    if config.role.Primary? {
      PrimaryDelivers(if config.downstream.Some? then Some(config.downstream.value.pgUrl) else None);
    } else {
      StandbyDelivers();
    }
  }

  lemma StartOnTheWay(s: State)
    requires OnTheWay(s) && !s.oneNodeWriteMode
    ensures OnTheWay(BeginStart(s))
  {
    if s.pgConfig.Some? && !s.pgConfig.value.role.NoRole? {
      FullCodeDelivers(s, s.pgConfig.value);
      BeginOnTheWay(s, Starting(s.pgConfig.value), FullCode(s, s.pgConfig.value));
    }
  }

  lemma StopOnTheWay(s: State)
    requires OnTheWay(s)
    ensures OnTheWay(BeginStop(s))
  {
    StopDelivers();
    BeginOnTheWay(s, Stopping, StopCode());
  }

  lemma StoredOnTheWay(s: State, config: Config, applied: bool)
    requires s.foreground.NoPipeline?
    ensures OnTheWay(s.(pgConfig := Some(config), appliedPgConfig := applied))
  {
  }

  lemma FullOnTheWay(s: State, config: Config)
    requires !s.oneNodeWriteMode && !config.role.NoRole?
    ensures OnTheWay(Begin(s, Reconfiguring(config), FullCode(s, config)))
  {
    FullCodeDelivers(s, config);
    BeginOnTheWay(s, Reconfiguring(config), FullCode(s, config));
  }

  lemma ChangeOnTheWay(s: State, config: Config)
    requires config.downstream.Some?
    ensures OnTheWay(Begin(s, ChangingStandby(config), UpdateStandbyCode(config.downstream.value.pgUrl)))
  {
    UpdateDelivers(config.downstream.value.pgUrl);
    BeginOnTheWay(s, ChangingStandby(config), UpdateStandbyCode(config.downstream.value.pgUrl));
  }

  lemma ReconfigureOnTheWay(s: State, config: Config)
    requires OnTheWay(s) && !s.oneNodeWriteMode && (s.transitioning || s.foreground.NoPipeline?)
    ensures BeginReconfigure(s, config).crashed || OnTheWay(BeginReconfigure(s, config))
  {
    if !s.transitioning {
      StoredOnTheWay(s, config, false);
      StoredOnTheWay(s, config, true);
      if !config.role.NoRole? {
        FullOnTheWay(s, config);
      }
      if config.downstream.Some? {
        ChangeOnTheWay(s, config);
      }
    }
  }

  lemma PollOnTheWay(s: State, id: nat, poll: Poll)
    requires Inv(s) && OnTheWay(s) && !s.crashed
    ensures OnTheWay(PollCheck(s, id, poll))
  {
    if id in s.background && s.background[id].Checking?
       && CheckStep(s.background[id].check, s.replicationTimeout, poll).TimedOut? {
      DoneOnTheWay(s, id, false);
    }
  }

  lemma WriteOnTheWay(s: State, id: nat, io: Io)
    requires Inv(s) && OnTheWay(s) && !s.crashed
    ensures OnTheWay(WriteEnablingConf(s, id, io))
  {
    if id in s.background && s.background[id].EnablingWrites? {
      if !io.ok {
        var s' := s.(disk := s.disk.(conf := io.left.conf));
        ReadyUnlessQuiet(s, s');
        DoneOnTheWay(s', id, false);
      }
    }
  }

  lemma SignalOnTheWay(s: State, id: nat)
    requires Inv(s) && OnTheWay(s) && !s.crashed
    ensures SignalCheck(s, id).crashed || OnTheWay(SignalCheck(s, id))
  {
    if id in s.background && s.background[id].Signalling? && s.postgres.Some? {
      HupKeeps(s);
      ReadyUnlessQuiet(s, Hup(s));
      DoneOnTheWay(Hup(s), id, true);
    }
  }

  lemma ExitOnTheWay(s: State)
    requires OnTheWay(s)
    ensures OnTheWay(s.(postgres := None)) && OnTheWay(s.(postgres := Unheard(s.postgres)))
  {
    if Wanted(s).Some? {
      var goal := Wanted(s).value;
      DeliversMore(goal, s.foreground.code, Lasting(goal, s), Lasting(goal, s.(postgres := None)));
      DeliversMore(goal, s.foreground.code, Lasting(goal, s), Lasting(goal, s.(postgres := Unheard(s.postgres))));
    }
  }

  lemma NextOnTheWay(s: State, e: Event)
    requires Inv(s) && OnTheWay(s) && !s.crashed
    ensures Next(s, e).crashed || OnTheWay(Next(s, e))
  {
    match e
    case Advance(io) => AdvanceOnTheWay(s, io);
    case CheckStarts(id, now) =>
    case CheckPolls(id, poll) => PollOnTheWay(s, id, poll);
    case WritesConf(id, io) => WriteOnTheWay(s, id, io);
    case Signals(id) => SignalOnTheWay(s, id);
    case PostgresExits => ExitOnTheWay(s);
    case StrayStop(_) => ExitOnTheWay(s);
    case Start => StartOnTheWay(s);
    case Stop => StopOnTheWay(s);
    case Reconfigure(config) => ReconfigureOnTheWay(s, config);
  }

  lemma {:induction false} RunOnTheWay(s: State, events: seq<Event>)
    requires Inv(s) && OnTheWay(s) && !s.crashed
    ensures Run(s, events).crashed || OnTheWay(Run(s, events))
    decreases |events|
  {
    if events != [] {
      NextKeeps(s, events[0]);
      NextOnTheWay(s, events[0]);
      if Next(s, events[0]).crashed {
        StaysCrashed(Next(s, events[0]), events[1..]);
      } else {
        RunOnTheWay(Next(s, events[0]), events[1..]);
      }
    }
  }

  lemma {:induction false} StaysCrashed(s: State, events: seq<Event>)
    requires s.crashed
    ensures Run(s, events) == s
    decreases |events|
  {
    if events != [] {
      StaysCrashed(s, events[1..]);
    }
  }

  // --- Success means the goal is reached

  /** The event ends the pipeline with success. */
  predicate Succeeds(s: State, e: Event) {
    && !s.crashed && s.foreground.Pipeline?
    && Next(s, e).foreground.NoPipeline? && Next(s, e).answer == Some(Answer(s.foreground.job, true))
  }

  lemma JumpEnds(s: State, code: Code)
    requires s.foreground.Pipeline? && Jump(s, code).foreground.NoPipeline?
    requires Jump(s, code).answer == Some(Answer(s.foreground.job, true))
    ensures code.Done? && Jump(s, code).postgres == s.postgres
  {
  }

  lemma SuccessIsByAdvance(s: State, e: Event)
    requires Inv(s) && OnTheWay(s) && Wanted(s).Some? && Succeeds(s, e)
    ensures e.Advance? && !s.foreground.code.instr.CancelTransitioning? && !s.foreground.code.instr.AwaitDone?
  {
    var code := s.foreground.code;
    if code.instr.AwaitDone? || code.instr.CancelTransitioning? {
      assert Delivers(Wanted(s).value, code.next, NOT_YET) && Delivers(Wanted(s).value, code.otherwise, NOT_YET);
    }
    match e
    case Advance(io) =>
      if code.instr.CancelTransitioning? && s.transitionFunc.None? {
        JumpEnds(s, code.next);
      }
    case CheckPolls(id, poll) => DoneDoesNotEnd(s, id, false);
    case WritesConf(id, io) => DoneDoesNotEnd(s.(disk := s.disk.(conf := io.left.conf)), id, false);
    case Signals(id) => DoneDoesNotEnd(Hup(s), id, true);
    case _ =>
  }

  lemma DoneDoesNotEnd(s: State, id: nat, ok: bool)
    requires s.foreground.Pipeline? && s.foreground.code.Step?
    requires s.foreground.code.instr.AwaitDone? ==> !s.foreground.code.next.Done? && !s.foreground.code.otherwise.Done?
    ensures BackgroundDone(s, id, ok).foreground.Pipeline?
         || BackgroundDone(s, id, ok).answer == Some(Answer(s.foreground.job, false))
  {
    if BackgroundDone(s, id, ok).foreground.NoPipeline? {
      DoneDoesNotSucceed(s, id, ok);
    }
  }

  /** What the manager remembers of a call that was answered: the new configuration, if it succeeded, and whether it runs. */
  predicate Kept(s: State, s': State, job: Job, ok: bool) {
    && s'.running == (if !ok then s.running else if job.Starting? then true else if job.Stopping? then false else s.running)
    && (if ok && !job.Stopping? then s'.pgConfig == Some(job.config) && s'.appliedPgConfig
        else s'.pgConfig == s.pgConfig && s'.appliedPgConfig == s.appliedPgConfig)
  }

  /** The event ends the pipeline and answers its call. */
  predicate Answers(s: State, s': State) {
    s.foreground.Pipeline? && s'.foreground.NoPipeline? ==>
      && s'.answer.Some? && s'.answer.value.job == s.foreground.job && !s'.transitioning
      && Kept(s, s', s.foreground.job, s'.answer.value.ok)
  }

  lemma JumpAnswers(s: State, code: Code)
    ensures Answers(s, Jump(s, code))
  {
  }

  lemma DoneAnswers(s: State, id: nat, ok: bool)
    ensures Answers(s, BackgroundDone(s, id, ok))
  {
    var s' := s.(background := s.background - {id}, transitionFunc := None);
    if s.foreground.Pipeline? && s.foreground.code.Step? {
      JumpAnswers(s', if ok then s.foreground.code.next else s.foreground.code.otherwise);
    }
  }

  lemma StepAnswers(s: State, instr: Instr, io: Io, code: Code)
    ensures Answers(s, Jump(Perform(s, instr, io), code))
  {
    JumpAnswers(Perform(s, instr, io), code);
  }

  lemma AdvanceAnswers(s: State, io: Io)
    ensures Answers(s, AdvancePipeline(s, io))
  {
    if s.foreground.Pipeline? && s.foreground.code.Step? {
      var code := s.foreground.code;
      if code.instr.CancelTransitioning? {
        JumpAnswers(s, code.next);
      } else if !code.instr.AwaitDone? {
        StepAnswers(s, code.instr, io, if Passes(s, code.instr, io) then code.next else code.otherwise);
      }
    }
  }

  lemma PollAnswers(s: State, id: nat, poll: Poll)
    ensures Answers(s, PollCheck(s, id, poll))
  {
    DoneAnswers(s, id, false);
  }

  lemma WriteAnswers(s: State, id: nat, io: Io)
    ensures Answers(s, WriteEnablingConf(s, id, io))
  {
    DoneAnswers(s.(disk := s.disk.(conf := io.left.conf)), id, false);
  }

  lemma SignalAnswers(s: State, id: nat)
    ensures Answers(s, SignalCheck(s, id))
  {
    DoneAnswers(Hup(s), id, true);
  }

  lemma CallAnswers(s: State, e: Event)
    requires e.Start? || e.Stop? || e.Reconfigure? || e.CheckStarts? || e.PostgresExits? || e.StrayStop?
    ensures Answers(s, Next(s, e))
  {
  }

  lemma EndingAnswers(s: State, e: Event)
    ensures Answers(s, Next(s, e))
  {
    match e
    case Advance(io) => AdvanceAnswers(s, io);
    case Start => CallAnswers(s, e);
    case Stop => CallAnswers(s, e);
    case Reconfigure(_) => CallAnswers(s, e);
    case CheckStarts(_, _) => CallAnswers(s, e);
    case PostgresExits => CallAnswers(s, e);
    case StrayStop(_) => CallAnswers(s, e);
    case CheckPolls(id, poll) => PollAnswers(s, id, poll);
    case WritesConf(id, io) => WriteAnswers(s, id, io);
    case Signals(id) => SignalAnswers(s, id);
  }

  lemma GoalReached(s: State, e: Event)
    requires Inv(s) && OnTheWay(s) && Wanted(s).Some? && Succeeds(s, e)
    ensures Next(s, e).postgres.Some? ==> RightProcess(Wanted(s).value, Next(s, e).postgres.value)
  {
    SuccessIsByAdvance(s, e);
    var code := s.foreground.code;
    var s', ok := Perform(s, code.instr, e.io), Passes(s, code.instr, e.io);
    StepDelivers(s, e.io);
    JumpEnds(s', if ok then code.next else code.otherwise);
  }

  /**
   * In every run, when a call is answered with success: who has become primary by a start, promotion or full
   * reconfiguration runs without recovery.conf and read-only; a primary whose standby was changed is read-only and names
   * the new one; a standby runs with recovery.conf and synchronous_commit off; who has stopped has no process. A process
   * that has exited by then is all that can be missing.
   */
  lemma SuccessReachesTheGoal(s: State, before: seq<Event>, e: Event)
    requires Initial(s) && !s.oneNodeWriteMode
    requires Succeeds(Run(s, before), e) && Wanted(Run(s, before)).Some?
    ensures var s' := Next(Run(s, before), e);
      s'.postgres.Some? ==> RightProcess(Wanted(Run(s, before)).value, s'.postgres.value)
  {
    InitialInv(s);
    RunKeeps(s, before);
    RunOnTheWay(s, before);
    GoalReached(Run(s, before), e);
  }

  // --- What the documentation promises otherwise

  /**
   * Reconfiguring to what is already in force is documented as doing nothing. It does nothing exactly for role 'none';
   * any other repetition begins a pipeline (or crashes the manager), which first of all waits for a background check.
   */
  lemma RepeatingIsANoOpOnlyForNone(s: State, config: Config)
    requires !s.crashed && s.running && !s.transitioning && s.foreground.NoPipeline?
    requires s.pgConfig == Some(config) && s.appliedPgConfig && WellFormed(config, s.oneNodeWriteMode)
    ensures Next(s, Reconfigure(config)) == s <==> config.role.NoRole?
    ensures !config.role.NoRole? ==>
      var s' := Next(s, Reconfigure(config));
      s'.crashed || (s'.foreground.Pipeline? && CancelsFirst(s'.foreground.code))
  {
  }
}
