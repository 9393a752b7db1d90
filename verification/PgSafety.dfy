/** What every run of the Postgres manager keeps, with one-node-write mode off. */
module PgSafety {
  import opened Wrappers
  import opened PgSettings
  import opened ReplicationCheck
  import opened PgMachine

  // --- Which pipelines are safe to run

  /**
   * What is known while a pipeline runs. Knowledge counts only when `quiet`: no background check is alive, so
   * that nothing else rewrites or reloads the configuration.
   */
  datatype Facts = Facts(
    quiet: bool,
    idle: bool,   // the process under the manager's handle, if any, is in recovery
    shut: bool,   // that process, if any, is in recovery or has loaded a read-only configuration
    ro: bool,     // postgresql.conf on disk is read-only
    rec: bool)    // there is a recovery.conf on disk

  const NOTHING := Facts(false, false, false, false, false)

  const ONLY_QUIET := Facts(true, false, false, false, false)

  predicate Implies(f: Facts, g: Facts) {
    (g.quiet ==> f.quiet) && (g.idle ==> f.idle) && (g.shut ==> f.shut) && (g.ro ==> f.ro) && (g.rec ==> f.rec)
  }

  /** After these steps background checks may be alive, or were so far. */
  predicate Forgets(instr: Instr, f: Facts) {
    instr.CancelTransitioning? || instr.AwaitDone? || instr.StartReplCheck? || (instr.StopPostgres? && !f.quiet)
  }

  predicate QuietAfter(instr: Instr, f: Facts) {
    instr.CancelTransitioning? || instr.AwaitDone? || (f.quiet && !instr.StartReplCheck?)
  }

  predicate IdleAfter(instr: Instr, f: Facts, ok: bool) {
    if ok && instr.StopPostgres? then true
    else if ok && instr.SpawnPostgres? then f.rec
    else f.idle
  }

  predicate ShutAfter(instr: Instr, f: Facts, ok: bool) {
    f.shut || instr.Sighup? || (ok && (instr.StopPostgres? || instr.SpawnPostgres?))
  }

  predicate ReadOnlyAfter(instr: Instr, f: Facts, ok: bool) {
    match instr
    case AssertDataset => false
    case RestoreFromPrimary => false
    case RestoreBackup => false
    case InitDb => false
    case UpdatePgConf(updates) => ok && ReadOnly(updates)
    case _ => f.ro
  }

  predicate RecoveryAfter(instr: Instr, f: Facts, ok: bool) {
    match instr
    case AssertDataset => false
    case RestoreFromPrimary => false
    case RestoreBackup => false
    case DeleteRecoveryConf => false
    case UpdateRecoveryConf => ok
    case _ => f.rec
  }

  /** What is known after a step that succeeded (`ok`) or not. */
  function After(instr: Instr, f: Facts, ok: bool): Facts {
    if Forgets(instr, f) then Facts(QuietAfter(instr, f), false, false, false, false)
    else Facts(QuietAfter(instr, f), IdleAfter(instr, f, ok), ShutAfter(instr, f, ok),
               ReadOnlyAfter(instr, f, ok), RecoveryAfter(instr, f, ok))
  }

  /** What has to be known before a step. */
  predicate Allows(instr: Instr, f: Facts) {
    match instr
    case CancelTransitioning => true
    case AwaitDone(_) => !f.quiet
    case StopPostgres => true
    case SpawnPostgres => f.quiet && f.idle && (f.ro || f.rec)
    case Sighup => f.quiet && f.ro
    case StartReplCheck(stdby) => f.quiet && f.shut && stdby != ""
    case _ => f.quiet
  }

  /** Steps after which background checks may be alive: nothing is known any more, so they have to be the last. */
  predicate Last(instr: Instr, f: Facts) {
    instr.StartReplCheck? || (instr.StopPostgres? && !f.quiet)
  }

  /** A pipeline is admitted when every step in it is allowed by what is known by then, on every path. */
  predicate Admits(code: Code, f: Facts) {
    match code
    case Done => true
    case Fail => true
    case Step(instr, next, otherwise) =>
      && Allows(instr, f)
      && (Last(instr, f) ==> !next.Step? && !otherwise.Step?)
      && Admits(next, After(instr, f, true))
      && Admits(otherwise, After(instr, f, false))
  }

  lemma AfterMore(instr: Instr, f: Facts, g: Facts, ok: bool)
    requires Implies(g, f)
    ensures Implies(After(instr, g, ok), After(instr, f, ok))
  {
  }

  lemma AfterQuiet(instr: Instr, f: Facts, ok: bool)
    requires Allows(instr, f)
    ensures Last(instr, f) || After(instr, f, ok).quiet
  {
  }

  lemma AllowsMore(instr: Instr, f: Facts, g: Facts)
    requires Allows(instr, f) && Implies(g, f) && (instr.AwaitDone? ==> g.quiet == f.quiet)
    ensures Allows(instr, g)
  {
  }

  lemma {:induction false} AdmitsMore(code: Code, f: Facts, g: Facts)
    requires Admits(code, f) && Implies(g, f)
    requires code.AwaitsHere() ==> f.quiet == g.quiet
    ensures Admits(code, g)
  {
    if code.Step? {
      AllowsMore(code.instr, f, g);
      AfterQuiet(code.instr, f, true);
      AfterQuiet(code.instr, f, false);
      AfterMore(code.instr, f, g, true);
      AfterMore(code.instr, f, g, false);
      AdmitsMore(code.next, After(code.instr, f, true), After(code.instr, g, true));
      AdmitsMore(code.otherwise, After(code.instr, f, false), After(code.instr, g, false));
    }
  }

  /** Build an admitted pipeline from its last step backwards; `g` and `h` are what its two continuations need. */
  lemma StepAdmitted(instr: Instr, next: Code, otherwise: Code, f: Facts, g: Facts, h: Facts)
    requires Allows(instr, f) && !Last(instr, f) && !next.AwaitsHere() && !otherwise.AwaitsHere()
    requires Implies(After(instr, f, true), g) && Admits(next, g)
    requires Implies(After(instr, f, false), h) && Admits(otherwise, h)
    ensures Admits(Step(instr, next, otherwise), f)
  {
    AdmitsMore(next, g, After(instr, f, true));
    AdmitsMore(otherwise, h, After(instr, f, false));
  }

  /** Every reconfiguration begins by cancelling the background check. */
  predicate CancelsFirst(code: Code) {
    code.Step? && code.instr.CancelTransitioning?
  }

  lemma StartAdmitted(next: Code, otherwise: Code, f: Facts)
    requires f.quiet && f.idle && (f.ro || f.rec)
    requires !next.AwaitsHere() && !otherwise.AwaitsHere()
    requires Admits(next, f.(shut := true, idle := f.rec))
    requires Admits(otherwise, f.(idle := f.rec))
    ensures Admits(StartCode(next, otherwise), f)
  {
    var h := f.(idle := f.rec);
    var g := h.(shut := true);
    StepAdmitted(AwaitStart, next, otherwise, g, g, h);
    StepAdmitted(SpawnPostgres, Step(AwaitStart, next, otherwise), otherwise, f, g, h);
  }

  lemma HealthAdmitted(start: Code, otherwise: Code, f: Facts)
    requires f.quiet && f.idle && !start.AwaitsHere() && !otherwise.AwaitsHere()
    requires Admits(start, f) && Admits(otherwise, f.(idle := f.rec))
    ensures Admits(Step(CheckHealth, Step(StopPostgres, start, otherwise), start), f)
  {
    StepAdmitted(StopPostgres, start, otherwise, f, f, f.(idle := f.rec));
    StepAdmitted(CheckHealth, Step(StopPostgres, start, otherwise), start, f, f, f);
  }

  lemma RestartAdmitted(next: Code, otherwise: Code, f: Facts)
    requires f.quiet && f.idle && (f.ro || f.rec)
    requires !next.AwaitsHere() && !otherwise.AwaitsHere()
    requires Admits(next, f.(shut := true, idle := f.rec))
    requires Admits(otherwise, f.(idle := f.rec))
    ensures Admits(RestartCode(next, otherwise), f)
  {
    StartAdmitted(next, otherwise, f);
    HealthAdmitted(StartCode(next, otherwise), otherwise, f);
  }

  lemma ReplCheckAdmitted(stdby: Option<string>, f: Facts)
    requires f.quiet && f.shut
    ensures Admits(StartReplCheckCode(stdby), f)
  {
  }

  /** A step that ends its pipeline on an error. */
  lemma OrFailAdmitted(instr: Instr, next: Code, f: Facts, g: Facts)
    requires Allows(instr, f) && !Last(instr, f) && !next.AwaitsHere()
    requires Implies(After(instr, f, true), g) && Admits(next, g)
    ensures Admits(Step(instr, next, Fail), f)
  {
    StepAdmitted(instr, next, Fail, f, g, NOTHING);
  }

  lemma StoppedAdmitted(code: Code)
    requires !code.AwaitsHere() && Admits(code, ONLY_QUIET.(idle := true, shut := true))
    ensures Admits(Step(CancelTransitioning, Step(StopPostgres, Step(AssertDataset, code, Fail), Fail), Fail), NOTHING)
  {
    var f := ONLY_QUIET.(idle := true, shut := true);
    OrFailAdmitted(AssertDataset, code, f, f);
    OrFailAdmitted(StopPostgres, Step(AssertDataset, code, Fail), ONLY_QUIET, f);
    OrFailAdmitted(CancelTransitioning, Step(StopPostgres, Step(AssertDataset, code, Fail), Fail), NOTHING, ONLY_QUIET);
  }

  /** A step that takes nothing away from what is known. */
  lemma UntouchedAdmitted(instr: Instr, code: Code, f: Facts)
    requires Allows(instr, f) && !Last(instr, f) && !code.AwaitsHere() && Admits(code, f)
    requires Implies(After(instr, f, true), f)
    ensures Admits(Step(instr, code, Fail), f)
  {
    OrFailAdmitted(instr, code, f, f);
  }

  lemma InitDbAdmitted(code: Code, f: Facts)
    requires f.quiet && !f.ro && !f.rec && !code.AwaitsHere() && Admits(code, f)
    ensures Admits(Step(ChmodDataDir, Step(InitDb, code, Fail), Fail), f)
  {
    UntouchedAdmitted(InitDb, code, f);
    UntouchedAdmitted(ChmodDataDir, Step(InitDb, code, Fail), f);
  }

  lemma DataDirAdmitted(code: Code, f: Facts)
    requires f.quiet && !f.ro && !f.rec && !code.AwaitsHere() && Admits(code, f)
    ensures Admits(Step(StatDataDir, Step(ChownDataDir, Step(ChmodDataDir, Step(InitDb, code, Fail), Fail), Fail), Fail), f)
  {
    var rest := Step(ChmodDataDir, Step(InitDb, code, Fail), Fail);
    InitDbAdmitted(code, f);
    UntouchedAdmitted(ChownDataDir, rest, f);
    UntouchedAdmitted(StatDataDir, Step(ChownDataDir, rest, Fail), f);
  }

  lemma ReadOnlyConfAdmitted(code: Code)
    requires !code.AwaitsHere() && Admits(code, ONLY_QUIET.(idle := true, shut := true, ro := true))
    ensures Admits(Step(DeleteRecoveryConf, Step(UpdatePgConf(PrimaryUpdates(false)), code, Fail), Fail),
                   ONLY_QUIET.(idle := true, shut := true))
  {
    var f := ONLY_QUIET.(idle := true, shut := true);
    OrFailAdmitted(UpdatePgConf(PrimaryUpdates(false)), code, f, f.(ro := true));
    OrFailAdmitted(DeleteRecoveryConf, Step(UpdatePgConf(PrimaryUpdates(false)), code, Fail), f, f);
  }

  lemma StartedReadOnlyAdmitted(stdby: Option<string>)
    ensures Admits(RestartCode(Step(CreateSnapshot, StartReplCheckCode(stdby), Fail), Fail),
                   ONLY_QUIET.(idle := true, shut := true, ro := true))
  {
    var g := ONLY_QUIET.(shut := true, ro := true);
    ReplCheckAdmitted(stdby, g);
    OrFailAdmitted(CreateSnapshot, StartReplCheckCode(stdby), g, g);
    RestartAdmitted(Step(CreateSnapshot, StartReplCheckCode(stdby), Fail), Fail, g.(idle := true));
  }

  lemma ReadOnlyStartAdmitted(stdby: Option<string>)
    ensures Admits(Step(DeleteRecoveryConf, Step(UpdatePgConf(PrimaryUpdates(false)),
                     RestartCode(Step(CreateSnapshot, StartReplCheckCode(stdby), Fail), Fail), Fail), Fail),
                   ONLY_QUIET.(idle := true, shut := true))
  {
    StartedReadOnlyAdmitted(stdby);
    ReadOnlyConfAdmitted(RestartCode(Step(CreateSnapshot, StartReplCheckCode(stdby), Fail), Fail));
  }

  lemma PrimaryAdmitted(stdby: Option<string>)
    ensures CancelsFirst(PrimaryCode(stdby, false)) && Admits(PrimaryCode(stdby, false), NOTHING)
  {
    var f := ONLY_QUIET.(idle := true, shut := true);
    var start := Step(DeleteRecoveryConf, Step(UpdatePgConf(PrimaryUpdates(false)),
                   RestartCode(Step(CreateSnapshot, StartReplCheckCode(stdby), Fail), Fail), Fail), Fail);
    ReadOnlyStartAdmitted(stdby);
    DataDirAdmitted(start, f);
    StoppedAdmitted(Step(StatDataDir, Step(ChownDataDir, Step(ChmodDataDir, Step(InitDb, start, Fail), Fail), Fail), Fail));
  }

  lemma UpdateStandbyAdmitted(stdby: string)
    ensures CancelsFirst(UpdateStandbyCode(stdby)) && Admits(UpdateStandbyCode(stdby), NOTHING)
  {
    var named: Conf := if stdby == "" then map[] else EnableWritesUpdates(stdby);
    var updates := named[READ_ONLY := "on"];
    var f := ONLY_QUIET.(ro := true);
    var c1 := StartReplCheckCode(Some(stdby));
    ReplCheckAdmitted(Some(stdby), f.(shut := true));
    var c2 := Step(Sighup, c1, Fail);
    StepAdmitted(Sighup, c1, Fail, f, f.(shut := true), NOTHING);
    StepAdmitted(UpdatePgConf(updates), c2, Fail, ONLY_QUIET, f, NOTHING);
    StepAdmitted(CancelTransitioning, Step(UpdatePgConf(updates), c2, Fail), Fail, NOTHING, ONLY_QUIET, NOTHING);
  }

  lemma RecoveryConfAdmitted(next: Code, otherwise: Code, f: Facts)
    requires f.quiet && !next.AwaitsHere() && !otherwise.AwaitsHere()
    requires Admits(next, f.(rec := true)) && Admits(otherwise, f.(ro := false, rec := false))
    ensures Admits(Step(ResolveVersionedPaths, Step(UpdateRecoveryConf, next, otherwise), otherwise), f)
  {
    var h := f.(ro := false, rec := false);
    StepAdmitted(UpdateRecoveryConf, next, otherwise, f, f.(rec := true), h);
    StepAdmitted(ResolveVersionedPaths, Step(UpdateRecoveryConf, next, otherwise), otherwise, f, f, h);
  }

  lemma StandbyConfAdmitted(next: Code, otherwise: Code, f: Facts)
    requires f.quiet && !next.AwaitsHere() && !otherwise.AwaitsHere()
    requires Admits(next, f.(ro := false, rec := true)) && Admits(otherwise, f.(ro := false, rec := false))
    ensures Admits(StandbyConfCode(next, otherwise), f)
  {
    var c := Step(UpdatePgConf(StandbyUpdates()), next, otherwise);
    StepAdmitted(UpdatePgConf(StandbyUpdates()), next, otherwise, f.(rec := true),
                 f.(ro := false, rec := true), f.(ro := false, rec := false));
    RecoveryConfAdmitted(c, otherwise, f);
  }

  lemma ReceivedAdmitted(rollBack: Code)
    requires !rollBack.AwaitsHere() && Admits(rollBack, ONLY_QUIET.(idle := true))
    ensures Admits(StandbyConfCode(RestartCode(Step(DestroyBackup, Done, Fail), rollBack), Fail), ONLY_QUIET.(idle := true))
  {
    var f := ONLY_QUIET.(idle := true);
    var destroy := Step(DestroyBackup, Done, Fail);
    AdmitsMore(rollBack, f, f.(rec := true));
    OrFailAdmitted(DestroyBackup, Done, f.(rec := true, shut := true), NOTHING);
    RestartAdmitted(destroy, rollBack, f.(rec := true));
    StandbyConfAdmitted(RestartCode(destroy, rollBack), Fail, f);
  }

  lemma RestoreStepAdmitted(received: Code, rollBack: Code)
    requires !received.AwaitsHere() && Admits(received, ONLY_QUIET.(idle := true))
    requires !rollBack.AwaitsHere() && Admits(rollBack, ONLY_QUIET.(idle := true))
    ensures Admits(Step(RestoreFromPrimary, received, rollBack), ONLY_QUIET.(idle := true))
  {
    var f := ONLY_QUIET.(idle := true);
    StepAdmitted(RestoreFromPrimary, received, rollBack, f, f, f);
  }

  lemma RestoreAdmitted()
    ensures Admits(RestoreCode(), ONLY_QUIET.(idle := true))
  {
    var rollBack := Step(RestoreBackup, Fail, Fail);
    var received := StandbyConfCode(RestartCode(Step(DestroyBackup, Done, Fail), rollBack), Fail);
    OrFailAdmitted(RestoreBackup, Fail, ONLY_QUIET.(idle := true), NOTHING);
    ReceivedAdmitted(rollBack);
    RestoreStepAdmitted(received, rollBack);
    assert RestoreCode() == Step(RestoreFromPrimary, received, rollBack);
  }

  lemma StandbyStartAdmitted(restore: Code)
    requires !restore.AwaitsHere() && Admits(restore, ONLY_QUIET.(idle := true))
    ensures Admits(StandbyConfCode(RestartCode(Done, restore), restore), ONLY_QUIET.(idle := true))
  {
    var f := ONLY_QUIET.(idle := true);
    AdmitsMore(restore, f, f.(rec := true));
    RestartAdmitted(Done, restore, f.(rec := true));
    StandbyConfAdmitted(RestartCode(Done, restore), restore, f);
  }

  lemma StandbyAdmitted()
    ensures CancelsFirst(StandbyCode()) && Admits(StandbyCode(), NOTHING)
  {
    var f := ONLY_QUIET.(idle := true);
    var code := StandbyConfCode(RestartCode(Done, RestoreCode()), RestoreCode());
    RestoreAdmitted();
    StandbyStartAdmitted(RestoreCode());
    AdmitsMore(code, f, f.(shut := true));
    StoppedAdmitted(code);
  }

  // --- The invariant

  predicate Shut(p: Process) {
    p.recovery || ReadOnly(p.conf)
  }

  /** A process that accepts writes names a synchronous standby. */
  ghost predicate Safe(p: Process) {
    Shut(p) || exists stdby :: stdby != "" && NamesStandby(p.conf, stdby)
  }

  /** The safety claim: no process, not even one the manager has lost, accepts writes that no standby is to confirm. */
  ghost predicate NoUnconfirmedWrites(s: State) {
    && (s.postgres.Some? ==> Safe(s.postgres.value))
    && forall p :: p in s.orphans ==> Safe(p)
  }

  function Known(s: State): Facts {
    if s.transitionFunc.Some? then NOTHING
    else Facts(true,
               s.postgres.Some? ==> s.postgres.value.recovery,
               s.postgres.Some? ==> Shut(s.postgres.value),
               ReadOnly(s.disk.conf), s.disk.recovery)
  }

  /** At most one background check is alive, and `_transitionFunc` is that check or null. */
  predicate OneCheck(s: State) {
    && s.background.Keys == (if s.transitionFunc.Some? then {s.transitionFunc.value} else {})
    && (s.transitionFunc.Some? ==> s.transitionFunc.value < s.nextId)
  }

  /** A background check has a standby; one about to signal Postgres has just named it on disk. */
  predicate NamedBeforeSignal(s: State) {
    forall id :: id in s.background ==>
      s.background[id].stdby != "" && (s.background[id].Signalling? ==> NamesStandby(s.disk.conf, s.background[id].stdby))
  }

  /** A pipeline waits only for a check that is alive. */
  predicate AwaitsAlive(code: Code, s: State) {
    code.AwaitsHere() ==> s.transitionFunc == Some(code.instr.id)
  }

  ghost predicate WorldInv(s: State) {
    && !s.oneNodeWriteMode
    && OneCheck(s)
    && NamedBeforeSignal(s)
    && (s.postgres.Some? ==> Safe(s.postgres.value))
    && forall p :: p in s.orphans ==> p.recovery
  }

  /** The rest of the foreground pipeline is admitted by what is known now. */
  predicate Ready(s: State, code: Code) {
    Admits(code, Known(s)) && AwaitsAlive(code, s)
  }

  ghost predicate Inv(s: State) {
    && WorldInv(s)
    && (!s.crashed ==> (s.transitioning <==> s.foreground.Pipeline?))
    && (s.foreground.Pipeline? ==> s.foreground.code.Step? && Ready(s, s.foreground.code))
  }

  lemma InitialInv(s: State)
    requires Initial(s) && !s.oneNodeWriteMode
    ensures Inv(s)
  {
  }

  /** While a pipeline is in progress every call is refused. */
  lemma RefusedWhileTransitioning(s: State, e: Event)
    requires Inv(s) && s.foreground.Pipeline? && (e.Start? || e.Stop? || e.Reconfigure?)
    ensures Next(s, e) == s
  {
  }

  // --- Every event keeps the invariant

  /** Admitted by less, hence by what is known; and not waiting, since everything is quiet. */
  lemma ReadyWhenKnown(s: State, code: Code, f: Facts)
    requires Admits(code, f) && Implies(Known(s), f) && (code.Step? ==> f.quiet)
    ensures Ready(s, code)
  {
    AdmitsMore(code, f, Known(s));
  }

  lemma JumpKeeps(s: State, code: Code)
    requires WorldInv(s) && !s.crashed && s.transitioning && s.foreground.Pipeline?
    requires Ready(s, code)
    ensures Inv(Jump(s, code)) && Jump(s, code).postgres == s.postgres && Jump(s, code).background == s.background
  {
  }

  lemma HupKeeps(s: State)
    requires WorldInv(s) && (s.postgres.Some? ==> Safe(s.postgres.value.(conf := s.disk.conf)))
    ensures WorldInv(Hup(s))
  {
  }

  lemma PerformKeeps(s: State, instr: Instr, io: Io)
    requires WorldInv(s) && Allows(instr, Known(s)) && !instr.CancelTransitioning? && !instr.AwaitDone?
    ensures WorldInv(Perform(s, instr, io))
  {
    match instr
    case Sighup => HupKeeps(s);
    case SpawnPostgres =>
    case _ =>
  }

  lemma TeachesProcess(s: State, instr: Instr, io: Io)
    requires WorldInv(s) && Allows(instr, Known(s)) && Known(s).quiet && !instr.StartReplCheck?
    ensures var p, f := PostgresAfter(s, instr, io), After(instr, Known(s), Passes(s, instr, io));
      (f.idle && p.Some? ==> p.value.recovery) && (f.shut && p.Some? ==> Shut(p.value))
  {
  }

  lemma TeachesDisk(s: State, instr: Instr, io: Io)
    requires Known(s).quiet
    ensures var d, f := DiskAfter(s, instr, io), After(instr, Known(s), Passes(s, instr, io));
      (f.ro ==> ReadOnly(d.conf)) && (f.rec ==> d.recovery)
  {
  }

  lemma PerformTeaches(s: State, instr: Instr, io: Io)
    requires WorldInv(s) && Allows(instr, Known(s)) && !instr.CancelTransitioning? && !instr.AwaitDone?
    ensures var s' := Perform(s, instr, io);
      && (!s'.crashed ==> Implies(Known(s'), After(instr, Known(s), Passes(s, instr, io))))
      && (s'.crashed && !s.crashed ==> instr.Sighup?)
  {
    if Known(s).quiet && !instr.StartReplCheck? {
      TeachesProcess(s, instr, io);
      TeachesDisk(s, instr, io);
    }
  }

  /** A step other than cancelling or awaiting a cancelled check. */
  lemma StepKeeps(s: State, io: Io, code: Code)
    requires Inv(s) && !s.crashed && s.foreground.Pipeline? && s.foreground.code == code
    requires !code.instr.CancelTransitioning? && !code.instr.AwaitDone?
    ensures var s', ok := Perform(s, code.instr, io), Passes(s, code.instr, io);
      Inv(if s'.crashed then s' else Jump(s', if ok then code.next else code.otherwise))
  {
    var s', ok := Perform(s, code.instr, io), Passes(s, code.instr, io);
    PerformKeeps(s, code.instr, io);
    PerformTeaches(s, code.instr, io);
    if !s'.crashed {
      var then' := if ok then code.next else code.otherwise;
      AfterQuiet(code.instr, Known(s), ok);
      ReadyWhenKnown(s', then', After(code.instr, Known(s), ok));
      JumpKeeps(s', then');
    }
  }

  lemma CancelKeeps(s: State, code: Code)
    requires Inv(s) && !s.crashed && s.foreground.Pipeline? && s.foreground.code == code
    requires code.instr.CancelTransitioning? && s.transitionFunc.Some?
    ensures var id := s.transitionFunc.value;
      Inv(s.(background := Cancelled(s.background, id),
             foreground := Pipeline(s.foreground.job, Step(AwaitDone(id), code.next, code.otherwise))))
  {
    var id := s.transitionFunc.value;
    var code' := Step(AwaitDone(id), code.next, code.otherwise);
    assert Admits(code', NOTHING);
  }

  lemma AwaitKeeps(s: State, code: Code)
    requires Inv(s) && !s.crashed && s.foreground.Pipeline? && s.foreground.code == code && code.AwaitsHere()
    ensures Inv(s.(background := Cancelled(s.background, code.instr.id)))
  {
  }

  lemma AdvanceKeeps(s: State, io: Io)
    requires Inv(s) && !s.crashed
    ensures Inv(AdvancePipeline(s, io))
  {
    if s.foreground.Pipeline? {
      var code := s.foreground.code;
      if code.instr.CancelTransitioning? {
        if s.transitionFunc.None? {
          ReadyWhenKnown(s, code.next, ONLY_QUIET);
          JumpKeeps(s, code.next);
        } else {
          CancelKeeps(s, code);
        }
      } else if code.instr.AwaitDone? {
        AwaitKeeps(s, code);
      } else {
        StepKeeps(s, io, code);
      }
    }
  }

  lemma BackgroundDoneKeeps(s: State, id: nat, ok: bool)
    requires Inv(s) && !s.crashed && id in s.background
    ensures Inv(BackgroundDone(s, id, ok))
  {
    var s' := s.(background := s.background - {id}, transitionFunc := None);
    assert s'.background == map[];
    if s.foreground.Pipeline? {
      var code := s.foreground.code;
      if code.AwaitsHere() {
        var next := if ok then code.next else code.otherwise;
        ReadyWhenKnown(s', next, ONLY_QUIET);
        JumpKeeps(s', next);
      } else {
        AdmitsMore(code, NOTHING, Known(s'));
      }
    }
  }

  lemma ReadyUnlessQuiet(s: State, s': State)
    requires Inv(s) && s.transitionFunc.Some? && s'.transitionFunc == s.transitionFunc
    requires s'.foreground == s.foreground
    ensures s'.foreground.Pipeline? ==> Ready(s', s'.foreground.code)
  {
  }

  lemma PollKeeps(s: State, id: nat, poll: Poll)
    requires Inv(s) && !s.crashed
    ensures Inv(PollCheck(s, id, poll))
  {
    if id in s.background && s.background[id].Checking?
       && CheckStep(s.background[id].check, s.replicationTimeout, poll).TimedOut? {
      BackgroundDoneKeeps(s, id, false);
    }
  }

  lemma WriteKeeps(s: State, id: nat, io: Io)
    requires Inv(s) && !s.crashed
    ensures Inv(WriteEnablingConf(s, id, io))
  {
    if id in s.background && s.background[id].EnablingWrites? {
      if io.ok {
        var stdby := s.background[id].stdby;
        FormattedIsListed(stdby);
        UpdateNamesStandby(io.shipped, s.additionalPgOptions, EnableWritesUpdates(stdby), stdby);
        ReadyUnlessQuiet(s, WriteEnablingConf(s, id, io));
      } else {
        var s' := s.(disk := s.disk.(conf := io.left.conf));
        ReadyUnlessQuiet(s, s');
        BackgroundDoneKeeps(s', id, false);
      }
    }
  }

  lemma SignalKeeps(s: State, id: nat)
    requires Inv(s) && !s.crashed
    ensures Inv(SignalCheck(s, id))
  {
    if id in s.background && s.background[id].Signalling? {
      HupKeeps(s);
      if s.postgres.Some? {
        ReadyUnlessQuiet(s, Hup(s));
        BackgroundDoneKeeps(Hup(s), id, true);
      }
    }
  }

  lemma BeginKeeps(s: State, job: Job, code: Code)
    requires Inv(s) && !s.crashed && !s.transitioning
    requires code.Step? && !code.AwaitsHere() && Admits(code, NOTHING)
    ensures Inv(Begin(s, job, code))
  {
    AdmitsMore(code, NOTHING, Known(s));
  }

  lemma FullCodeAdmitted(s: State, config: Config)
    requires !s.oneNodeWriteMode
    ensures CancelsFirst(FullCode(s, config)) && Admits(FullCode(s, config), NOTHING)
  {
    if config.role.Primary? {
      PrimaryAdmitted(if config.downstream.Some? then Some(config.downstream.value.pgUrl) else None);
    } else {
      StandbyAdmitted();
    }
  }

  lemma StartKeeps(s: State)
    requires Inv(s) && !s.crashed
    ensures Inv(BeginStart(s))
  {
    if !(s.transitioning || s.running || s.pgConfig.None? || s.pgConfig.value.role.NoRole?) {
      FullCodeAdmitted(s, s.pgConfig.value);
      BeginKeeps(s, Starting(s.pgConfig.value), FullCode(s, s.pgConfig.value));
    }
  }

  lemma StopKeeps(s: State)
    requires Inv(s) && !s.crashed
    ensures Inv(BeginStop(s))
  {
    if !(s.transitioning || !s.running) {
      BeginKeeps(s, Stopping, StopCode());
    }
  }

  lemma BeginFullKeeps(s: State, config: Config)
    requires Inv(s) && !s.crashed && !s.transitioning
    ensures Inv(Begin(s, Reconfiguring(config), FullCode(s, config)))
  {
    FullCodeAdmitted(s, config);
    BeginKeeps(s, Reconfiguring(config), FullCode(s, config));
  }

  lemma BeginUpdateKeeps(s: State, config: Config)
    requires Inv(s) && !s.crashed && !s.transitioning && config.downstream.Some?
    ensures Inv(Begin(s, ChangingStandby(config), UpdateStandbyCode(config.downstream.value.pgUrl)))
  {
    UpdateStandbyAdmitted(config.downstream.value.pgUrl);
    BeginKeeps(s, ChangingStandby(config), UpdateStandbyCode(config.downstream.value.pgUrl));
  }

  lemma ReconfigureKeeps(s: State, config: Config)
    requires Inv(s) && !s.crashed
    ensures Inv(BeginReconfigure(s, config))
  {
    if !s.transitioning {
      BeginFullKeeps(s, config);
      if config.downstream.Some? {
        BeginUpdateKeeps(s, config);
      }
    }
  }

  /** Losing the process takes nothing away from what is known. */
  lemma ProcessGone(s: State, s': State)
    requires Inv(s) && !s.crashed && s' in {s, s.(postgres := None), s.(postgres := None, crashed := true), s.(postgres := Unheard(s.postgres))}
    ensures Inv(s')
  {
    if s.foreground.Pipeline? {
      AdmitsMore(s.foreground.code, Known(s), Known(s'));
    }
  }

  lemma NextKeeps(s: State, e: Event)
    requires Inv(s)
    ensures Inv(Next(s, e))
  {
    if !s.crashed {
      match e
      case Advance(io) => AdvanceKeeps(s, io);
      case PostgresExits => ProcessGone(s, Next(s, e));
      case StrayStop(_) => ProcessGone(s, Next(s, e));
      case Start => StartKeeps(s);
      case Stop => StopKeeps(s);
      case Reconfigure(config) => ReconfigureKeeps(s, config);
      case CheckStarts(id, now) =>
      case CheckPolls(id, poll) => PollKeeps(s, id, poll);
      case WritesConf(id, io) => WriteKeeps(s, id, io);
      case Signals(id) => SignalKeeps(s, id);
    }
  }

  lemma {:induction false} RunKeeps(s: State, events: seq<Event>)
    requires Inv(s)
    ensures Inv(Run(s, events))
    decreases |events|
  {
    if events != [] {
      NextKeeps(s, events[0]);
      RunKeeps(Next(s, events[0]), events[1..]);
    }
  }

  /** Safety in every run: with one-node-write mode off, writes are never accepted without a named standby. */
  lemma AlwaysSafe(s: State, events: seq<Event>)
    requires Initial(s) && !s.oneNodeWriteMode
    ensures NoUnconfirmedWrites(Run(s, events))
    ensures OneCheck(Run(s, events))
  {
    InitialInv(s);
    RunKeeps(s, events);
  }
}
