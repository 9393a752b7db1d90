/** The Postgres manager as the object it is in lib/postgresMgr.js: its fields, updated in place by its callbacks. */
module PgManager {
  import opened Wrappers
  import opened PgSettings
  import opened ReplicationCheck
  import M = PgMachine
  import PgSafety
  import PgRoles
  import PgCrashes

  /** What a call to `reconfigure` comes to at once. */
  datatype Response =
    | IllFormed     // an assertion fails
    | Refused       // another call is in progress
    | Remembered    // to be applied by the next start, or nothing more to do for role 'none'
    | Crashed
    | Begun         // it will be answered later

  class PostgresMgr {
    const oneNodeWriteMode: bool
    const replicationTimeout: int
    var running: bool
    var transitioning: bool
    var pgConfig: Option<M.Config>
    var appliedPgConfig: bool
    var additionalPgOptions: Conf
    var transitionFunc: Option<nat>
    var foreground: M.Foreground
    var background: map<nat, M.Background>
    var nextId: nat
    var answer: Option<M.Answer>
    var postgres: Option<M.Process>
    var orphans: seq<M.Process>
    var disk: M.Disk
    var crashed: bool

    /** The state of the machine that the fields stand for. */
    ghost function View(): M.State
      reads this
    {
      M.State(oneNodeWriteMode, replicationTimeout, running, transitioning, pgConfig, appliedPgConfig,
              additionalPgOptions, transitionFunc, foreground, background, nextId, answer,
              postgres, orphans, disk, crashed)
    }

    /**
     * With one-node-write mode off: writes are never accepted without a named standby, and the call in progress, if it
     * is ever answered with success, will have brought about what it is for.
     */
    ghost predicate Valid()
      reads this
    {
      !oneNodeWriteMode ==> PgSafety.Inv(View()) && (crashed || PgRoles.OnTheWay(View()))
    }

    constructor (oneNodeWriteMode: bool, replicationTimeout: int, disk: M.Disk)
      ensures Valid() && M.Initial(View())
      ensures this.oneNodeWriteMode == oneNodeWriteMode && this.replicationTimeout == replicationTimeout && this.disk == disk
    {
      this.oneNodeWriteMode, this.replicationTimeout := oneNodeWriteMode, replicationTimeout;
      running, transitioning, pgConfig, appliedPgConfig := false, false, None, false;
      additionalPgOptions, transitionFunc := map[], None;
      foreground, background, nextId, answer := M.NoPipeline, map[], 0, None;
      postgres, orphans, crashed := None, [], false;
      this.disk := disk;
      new;
      if !oneNodeWriteMode {
        PgSafety.InitialInv(View());
      }
    }

    /**
     * A start is refused while another call is in progress, or if Postgres was started or there is no role for it; that
     * changes nothing. Otherwise the call is on its way to the goal of the role; no process or file is touched yet.
     */
    method Start() returns (refused: bool)
      requires Valid() && !crashed
      modifies `transitioning, `foreground
      ensures Valid() && View() == M.Next(old(View()), M.Start)
      ensures old(transitioning) ==> refused
      ensures refused ==> View() == old(View()) && (transitioning || running || pgConfig.None? || pgConfig.value.role.NoRole?)
      ensures !refused ==> transitioning && foreground.Pipeline?
      ensures !refused ==> PgRoles.Wanted(View()) == Some(if pgConfig.value.role.Primary? then PgRoles.AsPrimary else PgRoles.AsStandby)
    {
      ghost var s := View();
      refused := transitioning || running || pgConfig.None? || pgConfig.value.role.NoRole?;
      if !refused {
        transitioning := true;
        foreground := M.Pipeline(M.Starting(pgConfig.value), Reconfiguration(pgConfig.value));
      }
      Preserved(s, M.Start);
    }

    /** The same for a stop, whose goal is that there is no process. */
    method Stop() returns (refused: bool)
      requires Valid() && !crashed
      modifies `transitioning, `foreground
      ensures Valid() && View() == M.Next(old(View()), M.Stop)
      ensures old(transitioning) ==> refused
      ensures refused ==> View() == old(View()) && (transitioning || !running)
      ensures !refused ==> transitioning && PgRoles.Wanted(View()) == Some(PgRoles.AsStopped)
    {
      ghost var s := View();
      refused := transitioning || !running;
      if !refused {
        transitioning := true;
        foreground := M.Pipeline(M.Stopping, M.StopCode());
      }
      Preserved(s, M.Stop);
    }

    function Reconfiguration(config: M.Config): M.Code {
      if config.role.Primary? then
        M.PrimaryCode(if config.downstream.Some? then Some(config.downstream.value.pgUrl) else None, oneNodeWriteMode)
      else M.StandbyCode()
    }

    /** A primary that is running and stays primary only changes its standby. */
    ghost function JobFor(config: M.Config): M.Job
      reads this
    {
      if config.role.Primary? && postgres.Some? && pgConfig.Some? && pgConfig.value.role.Primary?
      then M.ChangingStandby(config) else M.Reconfiguring(config)
    }

    /**
     * A reconfiguration that is malformed or refused changes nothing; while nothing runs it is only remembered. If it is
     * begun, it is on its way to the goal of the new role. It crashes the manager exactly on a primary without downstream.
     */
    method Reconfigure(config: M.Config) returns (r: Response)
      requires Valid() && !crashed
      modifies `transitioning, `foreground, `pgConfig, `appliedPgConfig, `crashed
      ensures Valid() && View() == M.Next(old(View()), M.Reconfigure(config))
      ensures r.IllFormed? <==> !M.WellFormed(config, oneNodeWriteMode)
      ensures r.Refused? <==> !r.IllFormed? && old(transitioning)
      ensures r.IllFormed? || r.Refused? ==> View() == old(View())
      ensures r.Remembered? ==> pgConfig == Some(config) && (appliedPgConfig <==> running) && (running ==> config.role.NoRole?)
      ensures crashed <==> r.Crashed?
      ensures r.Crashed? <==> PgCrashes.NullDownstream(old(View()), M.Reconfigure(config))
      ensures r.Begun? ==> transitioning && running && pgConfig == old(pgConfig)
      ensures r.Begun? ==> PgRoles.Wanted(View()) == PgRoles.GoalOf(old(JobFor(config))) && PgRoles.Wanted(View()).Some?
    {
      ghost var s := View();
      r := Decide(config);
      Preserved(s, M.Reconfigure(config));
    }

    method Decide(config: M.Config) returns (r: Response)
      requires !crashed
      modifies `transitioning, `foreground, `pgConfig, `appliedPgConfig, `crashed
      ensures View() == M.BeginReconfigure(old(View()), config)
      ensures r.IllFormed? <==> !M.WellFormed(config, oneNodeWriteMode)
      ensures r.Refused? <==> !r.IllFormed? && old(transitioning)
      ensures r.Remembered? ==> pgConfig == Some(config) && (appliedPgConfig <==> running) && (running ==> config.role.NoRole?)
      ensures crashed <==> r.Crashed?
      ensures r.Crashed? <==> PgCrashes.NullDownstream(old(View()), M.Reconfigure(config))
      ensures r.Begun? ==> running && foreground.Pipeline? && pgConfig == old(pgConfig) && !config.role.NoRole?
      ensures r.Begun? ==> foreground.job == old(JobFor(config))
      ensures r.Begun? && foreground.job.ChangingStandby? ==> config.downstream.Some?
      ensures r.Begun? ==> transitioning
    {
      if !M.WellFormed(config, oneNodeWriteMode) {
        return IllFormed;
      }
      if transitioning {
        return Refused;
      }
      if !running {
        pgConfig, appliedPgConfig := Some(config), false;
        return Remembered;
      }
      if config.role.NoRole? {
        pgConfig, appliedPgConfig := Some(config), true;
        return Remembered;
      }
      r := Change(config);
    }

    /** The end of `_reconfigure`, for a node that is running. */
    method Change(config: M.Config) returns (r: Response)
      requires !crashed && running && !transitioning && !config.role.NoRole? && M.WellFormed(config, oneNodeWriteMode)
      modifies `transitioning, `foreground, `crashed
      ensures View() == M.BeginReconfigure(old(View()), config)
      ensures r.Begun? || r.Crashed?
      ensures crashed <==> r.Crashed?
      ensures r.Crashed? <==> PgCrashes.NullDownstream(old(View()), M.Reconfigure(config))
      ensures r.Begun? ==> transitioning && foreground.Pipeline? && foreground.job == old(JobFor(config))
      ensures r.Begun? && foreground.job.ChangingStandby? ==> config.downstream.Some?
    {
      transitioning := true;
      if postgres.Some? && pgConfig.Some? && pgConfig.value.role.Primary? && config.role.Primary? {
        if config.downstream.None? {
          crashed := true;
          return Crashed;
        }
        foreground := M.Pipeline(M.ChangingStandby(config), M.UpdateStandbyCode(config.downstream.value.pgUrl));
      } else {
        foreground := M.Pipeline(M.Reconfiguring(config), Reconfiguration(config));
      }
      r := Begun;
    }

    /** What every event keeps. */
    lemma Preserved(s: M.State, e: M.Event)
      requires s.oneNodeWriteMode == oneNodeWriteMode && View() == M.Next(s, e)
      requires !oneNodeWriteMode ==> PgSafety.Inv(s) && (s.crashed || PgRoles.OnTheWay(s))
      ensures Valid()
    {
      if !oneNodeWriteMode {
        PgSafety.NextKeeps(s, e);
        if !s.crashed {
          PgRoles.NextOnTheWay(s, e);
        }
      }
    }

    method Settle(job: M.Job)
      modifies `running, `pgConfig, `appliedPgConfig
      ensures View() == M.Settled(old(View()), job)
    {
      match job
      case Stopping => running := false;
      case Starting(config) => running, pgConfig, appliedPgConfig := true, Some(config), true;
      case _ => pgConfig, appliedPgConfig := Some(job.config), true;
    }

    /** The end of a pipeline, which answers its call. */
    method Finish(job: M.Job, ok: bool)
      modifies `transitioning, `foreground, `answer, `running, `pgConfig, `appliedPgConfig
      ensures View() == M.Finish(old(View()), job, ok)
    {
      transitioning, foreground, answer := false, M.NoPipeline, Some(M.Answer(job, ok));
      if ok {
        Settle(job);
      }
    }

    /** The foreground pipeline goes on at `code`, or ends. */
    method Jump(code: M.Code)
      modifies this
      ensures View() == M.Jump(old(View()), code)
    {
      if foreground.Pipeline? {
        if code.Step? {
          foreground := M.Pipeline(foreground.job, code);
        } else {
          Finish(foreground.job, code.Done?);
        }
      }
    }

    /** `getTunables`, once the file is read. */
    method ReadTunables(tunables: map<string, Conf>, version: string, major: string) returns (options: Conf)
      ensures options == GetTunables(tunables, version, major)
    {
      options := map[SYNCHRONOUS_COMMIT := "remote_write"];
      if "common" in tunables {
        options := options + tunables["common"];
      }
      if major in tunables {
        options := options + tunables[major];
      }
      if version in tunables {
        options := options + tunables[version];
      }
    }

    /** `_updateConf`: the keys of `options` are set one after the other in what was read from the shipped file. */
    method SetAll(shipped: Conf, options: Conf) returns (conf: Conf)
      ensures conf == shipped + options
    {
      conf := shipped;
      var keys := options.Keys;
      while keys != {}
        invariant keys <= options.Keys
        invariant conf.Keys == shipped.Keys + (options.Keys - keys)
        invariant forall k :: k in conf ==> conf[k] == if k in options && k !in keys then options[k] else shipped[k]
        decreases |keys|
      {
        var key :| key in keys;
        conf := conf[key := options[key]];
        keys := keys - {key};
      }
    }

    /** In the file that is written a setting comes from the updates, else from the tunables, else from the shipped file. */
    method UpdatePgConf(updates: Conf, io: M.Io)
      modifies `disk
      ensures disk == old(disk).(conf := if io.ok then UpdatedPgConf(io.shipped, additionalPgOptions, updates) else io.left.conf)
      ensures io.ok ==> forall key :: Lookup(disk.conf, key) == FirstDefined([updates, additionalPgOptions, io.shipped], key)
    {
      if io.ok {
        var conf := SetAll(io.shipped, additionalPgOptions + updates);
        disk := disk.(conf := conf);
        forall key ensures Lookup(conf, key) == FirstDefined([updates, additionalPgOptions, io.shipped], key) {
          ThreeLayers(updates, additionalPgOptions, io.shipped, key);
        }
      } else {
        disk := disk.(conf := io.left.conf);
      }
    }

    method Sighup()
      modifies this
      ensures View() == M.Hup(old(View()))
    {
      if postgres.None? {
        crashed := true;
      } else {
        postgres := Some(postgres.value.(conf := disk.conf));
      }
    }

    /** The parts of `_start` up to the spawn: a handle that is still set is overwritten. */
    method Spawn(io: M.Io)
      modifies this
      ensures View() == M.Perform(old(View()), M.SpawnPostgres, io)
    {
      if io.ok {
        additionalPgOptions := io.options;
        if postgres.Some? {
          orphans := orphans + [postgres.value];
        }
        postgres := Some(M.Process(disk.conf, disk.recovery, true));
      }
    }

    method PerformOnDisk(instr: M.Instr, io: M.Io)
      requires M.OnDisk(instr)
      modifies `disk
      ensures disk == M.DiskAfter(old(View()), instr, io)
    {
      match instr
      case InitDb =>
        if io.ok {
          disk := disk.(conf := io.shipped);
        }
      case DeleteRecoveryConf =>
        if io.ok {
          disk := disk.(recovery := false);
        }
      case UpdateRecoveryConf => disk := disk.(recovery := io.ok || io.left.recovery);
      case UpdatePgConf(updates) => UpdatePgConf(updates, io);
      case AssertDataset => disk := io.left;
      case RestoreFromPrimary => disk := io.left;
      case RestoreBackup => disk := io.left;
    }

    method RemoveListeners()
      modifies `postgres
      ensures postgres == M.Unheard(old(postgres))
    {
      if postgres.Some? {
        postgres := Some(postgres.value.(heard := false));
      }
    }

    method PerformOnPostgres(instr: M.Instr, io: M.Io)
      requires M.OnPostgres(instr)
      modifies this
      ensures View() == M.Perform(old(View()), instr, io)
    {
      match instr
      case SpawnPostgres => Spawn(io);
      case Sighup => Sighup();
      case StopPostgres =>
        if io.ok {
          postgres := None;
        } else {
          RemoveListeners();
        }
      case AwaitStart =>
        if !io.ok {
          if io.alive {
            RemoveListeners();
          } else {
            postgres := None;
          }
        }
    }

    method PerformElsewhere(instr: M.Instr, io: M.Io)
      requires !M.OnPostgres(instr) && !instr.StartReplCheck?
      modifies `disk, `additionalPgOptions
      ensures View() == M.Perform(old(View()), instr, io)
    {
      M.StepElsewhere(View(), instr, io);
      if M.OnDisk(instr) {
        PerformOnDisk(instr, io);
      }
      if io.ok && (instr.InitDb? || instr.ResolveVersionedPaths?) {
        additionalPgOptions := io.options;
      }
    }

    method BeginReplCheck(stdby: string)
      modifies `background, `transitionFunc, `nextId
      ensures View() == M.WithCheck(old(View()), stdby)
    {
      background := background[nextId := M.NotStarted(stdby)];
      transitionFunc, nextId := Some(nextId), nextId + 1;
    }

    /** Stopping without a process, and the steps whose errors are ignored or that cannot fail. */
    method Passes(instr: M.Instr, io: M.Io) returns (ok: bool)
      ensures ok == M.Passes(View(), instr, io)
    {
      ok := io.ok || (instr.StopPostgres? && postgres.None?)
            || instr.CreateSnapshot? || instr.Sighup? || instr.StartReplCheck? || instr.RestoreBackup?;
    }

    method Perform(instr: M.Instr, io: M.Io) returns (ok: bool)
      modifies this
      ensures View() == M.Perform(old(View()), instr, io) && ok == M.Passes(old(View()), instr, io)
    {
      ok := Passes(instr, io);
      if instr.StartReplCheck? {
        BeginReplCheck(instr.stdby);
      } else if M.OnPostgres(instr) {
        PerformOnPostgres(instr, io);
      } else {
        PerformElsewhere(instr, io);
      }
    }

    method Cancel(id: nat)
      modifies `background
      ensures background == M.Cancelled(old(background), id)
    {
      if id in background && background[id].Checking? {
        background := background[id := M.EnablingWrites(background[id].stdby)];
      }
    }

    method Advance(io: M.Io)
      modifies this
      ensures View() == M.AdvancePipeline(old(View()), io)
    {
      if foreground.NoPipeline? || !foreground.code.Step? {
        return;
      }
      var instr, next, otherwise := foreground.code.instr, foreground.code.next, foreground.code.otherwise;
      if instr.CancelTransitioning? {
        if transitionFunc.None? {
          Jump(next);
        } else {
          var id := transitionFunc.value;
          Cancel(id);
          foreground := M.Pipeline(foreground.job, M.Step(M.AwaitDone(id), next, otherwise));
        }
      } else if instr.AwaitDone? {
        Cancel(instr.id);
      } else {
        var ok := Perform(instr, io);
        if !crashed {
          Jump(if ok then next else otherwise);
        }
      }
    }

    /** A background pipeline emits 'done'. */
    method Done(id: nat, ok: bool)
      modifies this
      ensures View() == M.BackgroundDone(old(View()), id, ok)
    {
      background := background - {id};
      transitionFunc := None;
      if foreground.Pipeline? && foreground.code.Step? && foreground.code.instr == M.AwaitDone(id) {
        Jump(if ok then foreground.code.next else foreground.code.otherwise);
      }
    }

    method CheckStarts(id: nat, now: int)
      modifies `background
      ensures View() == M.StartCheck(old(View()), id, now)
    {
      if id in background && background[id].NotStarted? {
        background := background[id := M.Checking(background[id].stdby, Check(None, now))];
      }
    }

    method CheckPolls(id: nat, poll: Poll)
      modifies this
      ensures View() == M.PollCheck(old(View()), id, poll)
    {
      if id in background && background[id].Checking? {
        var stdby := background[id].stdby;
        match CheckStep(background[id].check, replicationTimeout, poll)
        case Continue(check) => background := background[id := M.Checking(stdby, check)];
        case CaughtUp => background := background[id := M.EnablingWrites(stdby)];
        case TimedOut => Done(id, false);
      }
    }

    method WritesConf(id: nat, io: M.Io)
      modifies this
      ensures View() == M.WriteEnablingConf(old(View()), id, io)
    {
      if id in background && background[id].EnablingWrites? {
        var stdby := background[id].stdby;
        UpdatePgConf(map[SYNCHRONOUS_STANDBY_NAMES := FormatStandbyName(stdby)], io);
        if io.ok {
          background := background[id := M.Signalling(stdby)];
        } else {
          Done(id, false);
        }
      }
    }

    method Signals(id: nat)
      modifies this
      ensures View() == M.SignalCheck(old(View()), id)
    {
      if id in background && background[id].Signalling? {
        Sighup();
        if !crashed {
          Done(id, true);
        }
      }
    }

    predicate At(instr: M.Instr)
      reads this
    {
      foreground.Pipeline? && foreground.code.Step? && foreground.code.instr == instr
    }

    /** The listeners on 'exit': that of `_start`, while it waits and afterwards, and that of `_stop`. */
    method OnExit()
      modifies `postgres, `crashed
      requires !crashed
      ensures View() == M.Exit(old(View()))
    {
      if postgres.Some? && !At(M.AwaitStart) && (postgres.value.heard || At(M.StopPostgres)) {
        postgres := None;
        crashed := !At(M.StopPostgres);
      }
    }

    /** The events that are not calls. */
    method Continue(e: M.Event)
      requires !crashed && !e.Start? && !e.Stop? && !e.Reconfigure?
      modifies this
      ensures View() == M.Next(old(View()), e)
    {
      match e
      case Advance(io) => Advance(io);
      case CheckStarts(id, now) => CheckStarts(id, now);
      case CheckPolls(id, poll) => CheckPolls(id, poll);
      case WritesConf(id, io) => WritesConf(id, io);
      case Signals(id) => Signals(id);
      case PostgresExits => OnExit();
      case StrayStop(ok) =>
        if ok {
          postgres := None;
        } else {
          RemoveListeners();
        }
    }

    /**
     * One event. While a call is in progress no other one has any effect. If the event ends the call with success, what
     * the call is for has been brought about, at least while the process lives.
     */
    method Handle(e: M.Event) returns (answered: Option<M.Answer>)
      requires Valid()
      modifies this
      ensures Valid() && View() == M.Next(old(View()), e)
      ensures !oneNodeWriteMode ==> PgSafety.NoUnconfirmedWrites(View())
      ensures answered.Some? <==> old(foreground).Pipeline? && foreground.NoPipeline?
      ensures answered.Some? ==> !transitioning && answered.value.job == old(foreground).job
      ensures Untouched(old(View()), e)
      ensures answered.Some? && answered.value.ok ==> Achieved(answered.value.job)
    {
      ghost var s := View();
      var before := foreground;
      Dispatch(e);
      Preserved(s, e);
      PgRoles.EndingAnswers(s, e);
      if before.Pipeline? && foreground.NoPipeline? {
        answered := answer;
        Answered(s, e);
      } else {
        answered := None;
      }
      RefusedThen(s, e);
    }

    /** While a call is in progress, another one leaves all as it is. */
    ghost predicate Untouched(s: M.State, e: M.Event)
      reads this
    {
      !oneNodeWriteMode && s.foreground.Pipeline? && (e.Start? || e.Stop? || e.Reconfigure?) ==> View() == s
    }

    /** What the call is for has been brought about, at least while the process lives. */
    ghost predicate Achieved(job: M.Job)
      reads this
    {
      !oneNodeWriteMode && PgRoles.GoalOf(job).Some? && postgres.Some? ==>
        PgRoles.RightProcess(PgRoles.GoalOf(job).value, postgres.value)
    }

    lemma Answered(s: M.State, e: M.Event)
      requires s.oneNodeWriteMode == oneNodeWriteMode && View() == M.Next(s, e)
      requires !oneNodeWriteMode ==> PgSafety.Inv(s) && (s.crashed || PgRoles.OnTheWay(s))
      requires s.foreground.Pipeline? && foreground.NoPipeline? && answer.Some? && answer.value.job == s.foreground.job
      ensures answer.value.ok ==> Achieved(s.foreground.job)
    {
      if !oneNodeWriteMode && answer.value.ok && PgRoles.Wanted(s).Some? {
        PgRoles.GoalReached(s, e);
      }
    }

    lemma RefusedThen(s: M.State, e: M.Event)
      requires s.oneNodeWriteMode == oneNodeWriteMode && View() == M.Next(s, e)
      requires !oneNodeWriteMode ==> PgSafety.Inv(s)
      ensures Untouched(s, e)
    {
      if !oneNodeWriteMode && s.foreground.Pipeline? && (e.Start? || e.Stop? || e.Reconfigure?) {
        PgSafety.RefusedWhileTransitioning(s, e);
      }
    }

    method Dispatch(e: M.Event)
      requires Valid()
      modifies this
      ensures View() == M.Next(old(View()), e)
    {
      if !crashed {
        match e
        case Start =>
          var refused := Start();
        case Stop =>
          var refused := Stop();
        case Reconfigure(config) =>
          var r := Reconfigure(config);
        case _ => Continue(e);
      }
    }

    /** Any series of events, from a new manager on. */
    method Serve(events: seq<M.Event>)
      requires M.Initial(View()) && !oneNodeWriteMode
      modifies this
      ensures View() == M.Run(old(View()), events)
      ensures PgSafety.NoUnconfirmedWrites(View())
    {
      ghost var s := View();
      PgSafety.InitialInv(s);
      for i := 0 to |events|
        invariant Valid() && M.Run(s, events) == M.Run(View(), events[i..])
      {
        assert events[i..][1..] == events[i + 1..];
        var answered := Handle(events[i]);
      }
      PgSafety.AlwaysSafe(s, events);
    }
  }
}
