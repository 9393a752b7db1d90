/** When the manager dies of an uncaught exception, and how a stop can lead there. */
module PgCrashes {
  import opened Wrappers
  import opened PgMachine
  import opened PgSettings
  import opened PgSafety
  import opened PgWrites

  // --- Exactly when

  /** SIGHUP is to be sent, and there is no process. */
  predicate SignalsNobody(s: State, e: Event) {
    && s.postgres.None?
    && ((e.Signals? && e.id in s.background && s.background[e.id].Signalling?)
        || (e.Advance? && s.foreground.Pipeline? && s.foreground.code.Step? && s.foreground.code.instr.Sighup?))
  }

  /** A primary that is running is reconfigured as primary without a downstream. */
  predicate NullDownstream(s: State, e: Event) {
    && e.Reconfigure? && WellFormed(e.config, s.oneNodeWriteMode) && !s.transitioning && s.running
    && s.postgres.Some? && s.pgConfig.Some? && s.pgConfig.value.role.Primary?
    && e.config.role.Primary? && e.config.downstream.None?
  }

  /** Postgres exits, and neither a start nor a stop is waiting for it. */
  predicate ExitsUnexpectedly(s: State, e: Event) {
    e.PostgresExits? && s.postgres.Some? && s.postgres.value.heard && !AwaitingStart(s) && !StoppingNow(s)
  }

  lemma AdvanceCrashesWhen(s: State, io: Io)
    requires !s.crashed
    ensures AdvancePipeline(s, io).crashed <==> SignalsNobody(s, Advance(io))
  {
    if s.foreground.Pipeline? && s.foreground.code.Step? {
      var s' := Perform(s, s.foreground.code.instr, io);
      assert s'.crashed <==> s.foreground.code.instr.Sighup? && s.postgres.None?;
    }
  }

  lemma ReconfigureCrashesWhen(s: State, config: Config)
    requires !s.crashed
    ensures BeginReconfigure(s, config).crashed <==> NullDownstream(s, Reconfigure(config))
  {
  }

  lemma SignalCrashesWhen(s: State, id: nat)
    requires !s.crashed
    ensures SignalCheck(s, id).crashed <==> SignalsNobody(s, Signals(id))
  {
  }

  lemma OthersDoNotCrash(s: State, e: Event)
    requires !s.crashed && !e.Advance? && !e.Reconfigure? && !e.Signals? && !e.PostgresExits?
    ensures !Next(s, e).crashed
  {
  }

  lemma CrashesExactlyWhen(s: State, e: Event)
    requires !s.crashed
    ensures Next(s, e).crashed <==> SignalsNobody(s, e) || NullDownstream(s, e) || ExitsUnexpectedly(s, e)
  {
    match e
    case Advance(io) => AdvanceCrashesWhen(s, io);
    case Reconfigure(config) => ReconfigureCrashesWhen(s, config);
    case Signals(id) => SignalCrashesWhen(s, id);
    case PostgresExits =>
    case _ => OthersDoNotCrash(s, e);
  }

  // --- A stop that leaves a check behind

  /** No process appears in the whole run, and no check reports its standby caught up. */
  predicate Lifeless(s: State, events: seq<Event>)
    decreases |events|
  {
    s.postgres.None? &&
    (events == [] || (!ReportsCaughtUp(s, events[0]) && Lifeless(Next(s, events[0]), events[1..])))
  }

  predicate CrashesLifeless(s: State, events: seq<Event>) {
    Lifeless(s, events) && Run(s, events).crashed
  }

  lemma OneMoreBefore(s: State, e: Event, events: seq<Event>)
    requires s.postgres.None? && !ReportsCaughtUp(s, e) && CrashesLifeless(Next(s, e), events)
    ensures CrashesLifeless(s, [e] + events)
  {
    assert ([e] + events)[1..] == events;
  }

  /** What a completed stop leaves. */
  function Stopped(s: State, io: Io): State {
    Next(Next(s, Stop), Advance(io))
  }

  lemma StoppingStops(s: State, io: Io)
    requires Inv(s) && !s.crashed && s.running && !s.transitioning && io.ok
    ensures var s' := Stopped(s, io);
      && Inv(s') && !s'.crashed && s'.postgres.None? && !s'.running && !s'.transitioning && s'.foreground.NoPipeline?
      && s'.transitionFunc == s.transitionFunc && s'.answer == Some(Answer(Stopping, true))
  {
    var s1 := Next(s, Stop);
    NextKeeps(s, Stop);
    NextKeeps(s1, Advance(io));
    assert s1.foreground == Pipeline(Stopping, Step(StopPostgres, Done, Fail));
    assert Passes(s1, StopPostgres, io);
    assert Perform(s1, StopPostgres, io).postgres.None?;
  }

  // --- With a check alive there is a way to crash

  const WORKS := Io(true, map[], Disk(map[], false), map[], true)

  /** The next step of a check that is waited for. */
  function NextStep(s: State, id: nat): Event
    requires id in s.background
  {
    match s.background[id]
    case NotStarted(_) => CheckStarts(id, 0)
    case Checking(_, _) => Advance(WORKS)
    case EnablingWrites(_) => WritesConf(id, WORKS)
    case Signalling(_) => Signals(id)
  }

  lemma StepNearer(s: State, id: nat)
    requires Inv(s) && Awaiting(s, id) && !s.crashed && s.postgres.None? && id in s.background
    ensures var s' := Next(s, NextStep(s, id));
      && (s.background[id].Signalling? ==> s'.crashed)
      && (!s.background[id].Signalling? ==>
            && !s'.crashed && Awaiting(s', id) && s'.postgres.None?
            && id in s'.background && StepsLeft(s'.background[id]) < StepsLeft(s.background[id]))
  {
  }

  /** Whoever waits for the check lets it go on to its signal. */
  lemma {:induction false} WaitingCrashes(s: State, id: nat) returns (events: seq<Event>)
    requires Inv(s) && Awaiting(s, id) && !s.crashed && s.postgres.None?
    ensures CrashesLifeless(s, events)
    decreases if id in s.background then StepsLeft(s.background[id]) else 0
  {
    AwaitedIsAlive(s, id);
    StepNearer(s, id);
    var e := NextStep(s, id);
    var s' := Next(s, e);
    if s.background[id].Signalling? {
      events := [];
      SignalLoads(s, id);
    } else {
      NextKeeps(s, e);
      events := WaitingCrashes(s', id);
    }
    OneMoreBefore(s, e, events);
    events := [e] + events;
  }

  const ALONE := Config(Primary, None, None)

  /** Stopped, with a check left behind. */
  ghost predicate LeftBehind(s: State) {
    && Inv(s) && !s.crashed && !s.running && !s.transitioning && s.foreground.NoPipeline?
    && s.postgres.None? && s.transitionFunc.Some?
  }

  lemma ConfiguredAlone(s: State)
    requires LeftBehind(s)
    ensures var s' := Next(s, Reconfigure(ALONE));
      LeftBehind(s') && s'.pgConfig == Some(ALONE) && s'.transitionFunc == s.transitionFunc
  {
    NextKeeps(s, Reconfigure(ALONE));
    assert Next(s, Reconfigure(ALONE)) == s.(pgConfig := Some(ALONE), appliedPgConfig := false);
  }

  lemma StartedAlone(s: State)
    requires LeftBehind(s) && s.pgConfig == Some(ALONE)
    ensures var s' := Next(s, Start);
      && Inv(s') && s'.postgres.None? && !s'.crashed && s'.transitionFunc == s.transitionFunc
      && s'.foreground == Pipeline(Starting(ALONE), PrimaryCode(None, s.oneNodeWriteMode))
  {
    NextKeeps(s, Start);
    assert Next(s, Start) == Begin(s, Starting(ALONE), PrimaryCode(None, s.oneNodeWriteMode));
  }

  lemma CancelWaits(s: State, io: Io)
    requires Inv(s) && s.postgres.None? && !s.crashed && s.transitionFunc.Some?
    requires s.foreground.Pipeline? && CancelsFirst(s.foreground.code)
    ensures var s' := Next(s, Advance(io));
      Inv(s') && s'.postgres.None? && !s'.crashed && Awaiting(s', s.transitionFunc.value)
  {
    NextKeeps(s, Advance(io));
  }

  /** The ordinary way: after the stop Postgres is started again, which cancels the check and so sets it on its way. */
  lemma StartAfterStopCrashes(s: State) returns (events: seq<Event>)
    requires LeftBehind(s)
    ensures CrashesLifeless(s, events) && |events| > 1 && events[1] == Start
  {
    var s1 := Next(s, Reconfigure(ALONE));
    ConfiguredAlone(s);
    var s2 := Next(s1, Start);
    StartedAlone(s1);
    CancelWaits(s2, WORKS);
    var rest := WaitingCrashes(Next(s2, Advance(WORKS)), s.transitionFunc.value);
    OneMoreBefore(s2, Advance(WORKS), rest);
    OneMoreBefore(s1, Start, [Advance(WORKS)] + rest);
    OneMoreBefore(s, Reconfigure(ALONE), [Start] + ([Advance(WORKS)] + rest));
    events := [Reconfigure(ALONE)] + ([Start] + ([Advance(WORKS)] + rest));
  }

  // --- Without one there is none

  /** The pipeline sends no signal and starts no check before it has started Postgres. */
  predicate NoSignal(code: Code) {
    code.Step? ==>
      && !code.instr.Sighup? && !code.instr.StartReplCheck? && !code.instr.AwaitDone?
      && NoSignal(code.otherwise) && (code.instr.SpawnPostgres? || NoSignal(code.next))
  }

  lemma RestartNoSignal(next: Code, otherwise: Code)
    requires NoSignal(otherwise)
    ensures NoSignal(RestartCode(next, otherwise))
  {
    assert NoSignal(StartCode(next, otherwise));
    assert NoSignal(Step(StopPostgres, StartCode(next, otherwise), otherwise));
  }

  lemma StandbyConfNoSignal(next: Code, otherwise: Code)
    requires NoSignal(next) && NoSignal(otherwise)
    ensures NoSignal(StandbyConfCode(next, otherwise))
  {
    assert NoSignal(Step(UpdatePgConf(StandbyUpdates()), next, otherwise));
    assert NoSignal(Step(UpdateRecoveryConf, Step(UpdatePgConf(StandbyUpdates()), next, otherwise), otherwise));
  }

  lemma StoppedNoSignal(code: Code)
    requires NoSignal(code)
    ensures NoSignal(Step(CancelTransitioning, Step(StopPostgres, Step(AssertDataset, code, Fail), Fail), Fail))
  {
    assert NoSignal(Step(AssertDataset, code, Fail));
    assert NoSignal(Step(StopPostgres, Step(AssertDataset, code, Fail), Fail));
  }

  lemma RestoreNoSignal()
    ensures NoSignal(RestoreCode())
  {
    var rollBack := Step(RestoreBackup, Fail, Fail);
    var restart := RestartCode(Step(DestroyBackup, Done, Fail), rollBack);
    RestartNoSignal(Step(DestroyBackup, Done, Fail), rollBack);
    StandbyConfNoSignal(restart, Fail);
    assert RestoreCode() == Step(RestoreFromPrimary, StandbyConfCode(restart, Fail), rollBack);
  }

  lemma StandbyNoSignal()
    ensures NoSignal(StandbyCode())
  {
    RestoreNoSignal();
    RestartNoSignal(Done, RestoreCode());
    StandbyConfNoSignal(RestartCode(Done, RestoreCode()), RestoreCode());
    StoppedNoSignal(StandbyConfCode(RestartCode(Done, RestoreCode()), RestoreCode()));
  }

  lemma PrimaryNoSignal(stdby: Option<string>, onwm: bool)
    ensures NoSignal(PrimaryCode(stdby, onwm))
  {
    var restart := RestartCode(Step(CreateSnapshot, StartReplCheckCode(stdby), Fail), Fail);
    RestartNoSignal(Step(CreateSnapshot, StartReplCheckCode(stdby), Fail), Fail);
    var conf := Step(DeleteRecoveryConf, Step(UpdatePgConf(PrimaryUpdates(onwm)), restart, Fail), Fail);
    assert NoSignal(conf);
    var perms := Step(StatDataDir, Step(ChownDataDir, Step(ChmodDataDir, Step(InitDb, conf, Fail), Fail), Fail), Fail);
    assert NoSignal(Step(InitDb, conf, Fail));
    assert NoSignal(perms);
    StoppedNoSignal(perms);
  }

  /** No process, no check, and nothing under way that would signal one. */
  predicate Harmless(s: State) {
    && !s.crashed && s.postgres.None? && s.transitionFunc.None? && s.background == map[]
    && (s.foreground.Pipeline? ==> NoSignal(s.foreground.code))
  }

  lemma FullNoSignal(s: State, config: Config)
    ensures NoSignal(FullCode(s, config))
  {
    if config.role.Primary? {
      PrimaryNoSignal(if config.downstream.Some? then Some(config.downstream.value.pgUrl) else None, s.oneNodeWriteMode);
    } else {
      StandbyNoSignal();
    }
  }

  lemma StartHarmless(s: State)
    requires Harmless(s)
    ensures Harmless(BeginStart(s))
  {
    if s.pgConfig.Some? {
      FullNoSignal(s, s.pgConfig.value);
    }
  }

  lemma ReconfigureHarmless(s: State, config: Config)
    requires Harmless(s)
    ensures Harmless(BeginReconfigure(s, config))
  {
    FullNoSignal(s, config);
  }

  lemma JumpHarmless(s: State, code: Code)
    requires Harmless(s) && NoSignal(code)
    ensures Harmless(Jump(s, code))
  {
  }

  lemma StepHarmless(s: State, io: Io)
    requires Harmless(s) && s.foreground.Pipeline? && s.foreground.code.Step?
    requires !s.foreground.code.instr.CancelTransitioning?
    ensures var code := s.foreground.code;
      var s' := Perform(s, code.instr, io);
      !s'.crashed && (s'.postgres.None? ==> Harmless(Jump(s', if Passes(s, code.instr, io) then code.next else code.otherwise)))
  {
    var code := s.foreground.code;
    var s' := Perform(s, code.instr, io);
    if s'.postgres.None? {
      assert Harmless(s');
      JumpHarmless(s', if Passes(s, code.instr, io) then code.next else code.otherwise);
    }
  }

  lemma AdvanceHarmless(s: State, io: Io)
    requires Harmless(s) && AdvancePipeline(s, io).postgres.None?
    ensures Harmless(AdvancePipeline(s, io))
  {
    if s.foreground.Pipeline? && s.foreground.code.Step? {
      if s.foreground.code.instr.CancelTransitioning? {
        JumpHarmless(s, s.foreground.code.next);
      } else {
        StepHarmless(s, io);
      }
    }
  }

  lemma NextHarmless(s: State, e: Event)
    requires Harmless(s) && Next(s, e).postgres.None?
    ensures Harmless(Next(s, e))
  {
    match e
    case Start => StartHarmless(s);
    case Reconfigure(config) => ReconfigureHarmless(s, config);
    case Advance(io) => AdvanceHarmless(s, io);
    case _ =>
  }

  lemma {:induction false} HarmlessNeverCrashes(s: State, events: seq<Event>)
    requires Harmless(s) && Lifeless(s, events)
    ensures !Run(s, events).crashed
    decreases |events|
  {
    if events != [] {
      NextHarmless(s, events[0]);
      HarmlessNeverCrashes(Next(s, events[0]), events[1..]);
    }
  }

  /**
   * A stop is dangerous exactly when a background check is alive at the time: then, and only then, the manager can crash
   * before any process appears again, and without any check ever reporting success.
   */
  lemma StopIsDangerousExactlyWhen(s: State, io: Io)
    requires Inv(s) && !s.crashed && s.running && !s.transitioning && io.ok
    ensures (exists events :: CrashesLifeless(Stopped(s, io), events)) <==> s.transitionFunc.Some?
  {
    StoppingStops(s, io);
    var s' := Stopped(s, io);
    if s.transitionFunc.Some? {
      var events := StartAfterStopCrashes(s');
    } else {
      assert s'.background.Keys == {};
      assert s'.background == map[];
      forall events ensures !CrashesLifeless(s', events) {
        if Lifeless(s', events) {
          HarmlessNeverCrashes(s', events);
        }
      }
    }
  }

  // --- A run from the beginning

  /** All goes well from here to the start of the check for the standby. */
  predicate Smooth(code: Code) {
    code.Step? && !code.instr.Sighup? && !code.instr.AwaitDone? &&
    if code.instr.StartReplCheck? then code.next.Done? else Smooth(code.next)
  }

  predicate Climbing(s: State) {
    && !s.crashed && s.transitionFunc.None? && s.transitioning
    && s.foreground.Pipeline? && s.foreground.job.Starting? && Smooth(s.foreground.code)
  }

  lemma OneStepUp(s: State)
    requires Climbing(s) && !s.foreground.code.instr.StartReplCheck?
    ensures Climbing(Next(s, Advance(WORKS))) && Next(s, Advance(WORKS)).foreground.code == s.foreground.code.next
  {
    var code := s.foreground.code;
    assert Smooth(code.next) && code.next.Step?;
    if !code.instr.CancelTransitioning? {
      assert Passes(s, code.instr, WORKS);
      var s' := Perform(s, code.instr, WORKS);
      assert !s'.crashed && s'.transitionFunc.None?;
    }
  }

  lemma LastStepUp(s: State)
    requires Climbing(s) && s.foreground.code.instr.StartReplCheck?
    ensures var s' := Next(s, Advance(WORKS));
      s'.running && !s'.transitioning && !s'.crashed && s'.transitionFunc.Some?
  {
    var code := s.foreground.code;
    var s' := Perform(s, code.instr, WORKS);
    assert s' == WithCheck(s, code.instr.stdby);
    assert Jump(s', Done) == Finish(s', s.foreground.job, true);
  }

  lemma {:induction false} Climb(s: State, code: Code) returns (events: seq<Event>)
    requires Climbing(s) && s.foreground.code == code
    ensures var s' := Run(s, events);
      s'.running && !s'.transitioning && !s'.crashed && s'.transitionFunc.Some?
    decreases code
  {
    var s' := Next(s, Advance(WORKS));
    if code.instr.StartReplCheck? {
      LastStepUp(s);
      events := [];
    } else {
      OneStepUp(s);
      events := Climb(s', code.next);
    }
    assert ([Advance(WORKS)] + events)[1..] == events;
    events := [Advance(WORKS)] + events;
  }

  lemma RestartSmooth(next: Code, otherwise: Code)
    requires Smooth(next)
    ensures Smooth(RestartCode(next, otherwise))
  {
    assert Smooth(Step(AwaitStart, next, otherwise));
    assert Smooth(StartCode(next, otherwise));
    assert Smooth(Step(StopPostgres, StartCode(next, otherwise), otherwise));
  }

  lemma PrimarySmooth(stdby: string)
    requires stdby != ""
    ensures Smooth(PrimaryCode(Some(stdby), false))
  {
    var check := Step(CreateSnapshot, StartReplCheckCode(Some(stdby)), Fail);
    assert Smooth(StartReplCheckCode(Some(stdby)));
    RestartSmooth(check, Fail);
    var conf := Step(DeleteRecoveryConf, Step(UpdatePgConf(PrimaryUpdates(false)), RestartCode(check, Fail), Fail), Fail);
    assert Smooth(Step(UpdatePgConf(PrimaryUpdates(false)), RestartCode(check, Fail), Fail));
    assert Smooth(conf);
    var dir := Step(ChownDataDir, Step(ChmodDataDir, Step(InitDb, conf, Fail), Fail), Fail);
    assert Smooth(Step(InitDb, conf, Fail));
    assert Smooth(dir);
    var start := Step(StopPostgres, Step(AssertDataset, Step(StatDataDir, dir, Fail), Fail), Fail);
    assert Smooth(Step(AssertDataset, Step(StatDataDir, dir, Fail), Fail));
    assert Smooth(start);
    assert PrimaryCode(Some(stdby), false) == Step(CancelTransitioning, start, Fail);
  }

  const NEW := State(false, 60000, false, false, None, false, map[], None, NoPipeline, map[], 0, None, None, [],
                     Disk(map[], false), false)

  const PAIR := Config(Primary, None, Some(Peer("tcp://postgres@10.0.0.2:5432/postgres", "http://10.0.0.2:12345")))

  lemma RunTwo(s: State, e1: Event, e2: Event, events: seq<Event>)
    ensures Run(s, [e1, e2] + events) == Run(Next(Next(s, e1), e2), events)
  {
    assert ([e1, e2] + events)[1..] == [e2] + events;
    assert ([e2] + events)[1..] == events;
    assert Run(Next(s, e1), [e2] + events) == Run(Next(Next(s, e1), e2), events);
  }

  /** A primary over one standby is started; it is stopped before its standby has caught up, and started again. */
  lemma CrashingRun() returns (before: seq<Event>, after: seq<Event>)
    ensures Initial(NEW) && !NEW.oneNodeWriteMode
    ensures var s := Run(NEW, before);
      && s.running && !s.transitioning && !s.crashed
      && CrashesLifeless(Stopped(s, WORKS), after) && |after| > 1 && after[1] == Start
  {
    var stdby := PAIR.downstream.value.pgUrl;
    assert |stdby| > 0;
    PrimarySmooth(stdby);
    var s1 := Next(NEW, Reconfigure(PAIR));
    assert s1 == NEW.(pgConfig := Some(PAIR));
    var s2 := Next(s1, Start);
    assert s2.foreground == Pipeline(Starting(PAIR), PrimaryCode(Some(stdby), false));
    var events := Climb(s2, PrimaryCode(Some(stdby), false));
    before := [Reconfigure(PAIR), Start] + events;
    RunTwo(NEW, Reconfigure(PAIR), Start, events);
    InitialInv(NEW);
    RunKeeps(NEW, before);
    StoppingStops(Run(NEW, before), WORKS);
    after := StartAfterStopCrashes(Stopped(Run(NEW, before), WORKS));
  }

  // --- Which exits are heard

  /** After a stop that failed, Postgres may end unnoticed: the manager neither crashes nor forgets the process. */
  lemma FailedStopIsNotHeard(s: State, io: Io)
    requires !s.crashed && s.postgres.Some? && s.foreground == Pipeline(Stopping, StopCode()) && !io.ok
    ensures var s1 := Next(s, Advance(io));
      && s1.answer == Some(Answer(Stopping, false)) && s1.running == s.running
      && s1.postgres.Some? && s1.postgres.value.conf == s.postgres.value.conf && Next(s1, PostgresExits) == s1
  {
  }

  /** So it may after a start that failed and left the process alive; otherwise there is none. */
  lemma FailedStartIsNotHeard(s: State, io: Io)
    requires !s.crashed && s.postgres.Some? && AwaitingStart(s) && !io.ok
    ensures var s1 := Next(s, Advance(io));
      && !s1.crashed && (s1.postgres.Some? <==> io.alive)
      && (s1.postgres.Some? ==> !s1.postgres.value.heard && !Next(s1, PostgresExits).crashed)
  {
    assert Perform(s, AwaitStart, io).postgres == PostgresAfter(s, AwaitStart, io);
  }

  /** And after a stray stop that failed; one that worked leaves no process. */
  lemma StrayStopIsNotHeard(s: State, ok: bool)
    requires !s.crashed && s.postgres.Some?
    ensures var s1 := Next(s, StrayStop(ok));
      && !s1.crashed && (s1.postgres.Some? <==> !ok) && !Next(s1, PostgresExits).crashed
  {
  }

  /** What a step that fails leaves on the disk: the file as it was, or whatever a broken write left in it. */
  lemma FailedWrites(s: State, updates: Conf, io: Io)
    requires !io.ok
    ensures Perform(s, UpdatePgConf(updates), io).disk == s.disk.(conf := io.left.conf)
    ensures Perform(s, UpdateRecoveryConf, io).disk == s.disk.(recovery := io.left.recovery)
    ensures Perform(s, DeleteRecoveryConf, io).disk == Perform(s, InitDb, io).disk == s.disk
  {
  }

  /** No process is lost sight of by a spawn: the one before it is still there, without a handle. */
  lemma SpawnLosesNothing(s: State, io: Io)
    requires io.ok
    ensures var s' := Perform(s, SpawnPostgres, io);
      && s'.postgres == Some(Process(s.disk.conf, s.disk.recovery, true))
      && (s.postgres.Some? ==> s.postgres.value in s'.orphans) && forall p :: p in s.orphans ==> p in s'.orphans
  {
  }

  /** At any other time an exit that is heard of ends the manager. */
  lemma ExitCrashes(s: State)
    requires !s.crashed && s.postgres.Some? && s.postgres.value.heard
    requires s.foreground.NoPipeline? || !s.foreground.code.Step? || s.foreground.code.instr !in {AwaitStart, StopPostgres}
    ensures Next(s, PostgresExits) == s.(postgres := None, crashed := true)
  {
  }

  /** An exit while a start waits is no event of its own: the start fails, with no process left. */
  lemma ExitFailsStart(s: State, job: Job, next: Code, io: Io)
    requires !s.crashed && s.foreground == Pipeline(job, Step(AwaitStart, next, Fail)) && !io.ok && !io.alive
    ensures Next(s, PostgresExits) == s
    ensures var s' := Next(s, Advance(io)); s'.postgres.None? && !s'.crashed && s'.answer == Some(Answer(job, false))
  {
    assert Perform(s, AwaitStart, io).postgres == PostgresAfter(s, AwaitStart, io);
  }

  /** An exit that a stop waits for is what it wants: however its own attempts come out, it has succeeded then. */
  lemma ExitEndsStop(s: State, io: Io)
    requires !s.crashed && s.foreground == Pipeline(Stopping, StopCode())
    ensures var s' := Next(Next(s, PostgresExits), Advance(io));
      && !s'.crashed && s'.postgres.None? && !s'.running && s'.answer == Some(Answer(Stopping, true))
  {
    var s1 := Next(s, PostgresExits);
    assert s1.postgres.None? && !s1.crashed && s1.foreground == s.foreground;
    NothingToStop(s1, io);
  }

  lemma NothingToStop(s: State, io: Io)
    requires !s.crashed && s.foreground == Pipeline(Stopping, StopCode()) && s.postgres.None?
    ensures var s' := Next(s, Advance(io));
      && !s'.crashed && s'.postgres.None? && !s'.running && s'.answer == Some(Answer(Stopping, true))
  {
    var s1 := Perform(s, StopPostgres, io);
    assert PostgresAfter(s, StopPostgres, io).None?;
    assert s1.postgres.None? && Passes(s, StopPostgres, io);
  }
}
