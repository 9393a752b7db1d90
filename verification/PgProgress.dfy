/** That calls get somewhere: when all goes well, what each of them ends with. */
module PgProgress {
  import opened Wrappers
  import opened PgSettings
  import opened PgMachine
  import opened PgSafety
  import opened PgWrites
  import opened PgRoles
  import opened PgCrashes

  // --- A pipeline whose steps all work

  /** What is known of the options, the files and the process, as far as it is. */
  datatype Knowledge = Knowledge(options: Option<Conf>, conf: Option<Conf>, recovery: Option<bool>, process: Option<Process>)

  const NOTHING_YET := Knowledge(None, None, None, None)

  predicate Holds(s: State, k: Knowledge) {
    && (k.options.Some? ==> s.additionalPgOptions == k.options.value)
    && (k.conf.Some? ==> s.disk.conf == k.conf.value)
    && (k.recovery.Some? ==> s.disk.recovery == k.recovery.value)
    && (k.process.Some? ==> s.postgres == k.process)
  }

  /** What is known after a step that works. */
  function Learnt(instr: Instr, k: Knowledge, io: Io): Knowledge {
    match instr
    case StopPostgres => k.(process := None)
    case AssertDataset => k.(conf := Some(io.left.conf), recovery := Some(io.left.recovery))
    case RestoreFromPrimary => k.(conf := Some(io.left.conf), recovery := Some(io.left.recovery))
    case InitDb => k.(options := Some(io.options), conf := Some(io.shipped))
    case ResolveVersionedPaths => k.(options := Some(io.options))
    case DeleteRecoveryConf => k.(recovery := Some(false))
    case UpdateRecoveryConf => k.(recovery := Some(true))
    case UpdatePgConf(updates) =>
      k.(conf := if k.options.None? then None else Some(UpdatedPgConf(io.shipped, k.options.value, updates)))
    case SpawnPostgres =>
      k.(options := Some(io.options),
         process := if k.conf.None? || k.recovery.None? then None else Some(Process(k.conf.value, k.recovery.value, true)))
    case Sighup =>
      k.(process := if k.conf.None? || k.process.None? then None else Some(k.process.value.(conf := k.conf.value)))
    case _ => k
  }

  /** There is a way to success, and SIGHUP is sent to a process that is known. */
  predicate Passable(code: Code, k: Knowledge, io: Io) {
    match code
    case Done => true
    case Fail => false
    case Step(instr, next, _) =>
      && !instr.AwaitDone? && !instr.RestoreBackup? && (instr.Sighup? ==> k.process.Some?)
      && (instr.StartReplCheck? ==> next.Done?)
      && Passable(next, Learnt(instr, k, io), io)
  }

  /** What is known at the end. */
  function AtEnd(code: Code, k: Knowledge, io: Io): Knowledge {
    match code
    case Step(instr, next, _) => AtEnd(next, Learnt(instr, k, io), io)
    case _ => k
  }

  /** Which standby is watched at the end. */
  function WatchedAtEnd(code: Code): Option<string> {
    match code
    case Step(instr, next, _) => if instr.StartReplCheck? then Some(instr.stdby) else WatchedAtEnd(next)
    case _ => None
  }

  predicate Underway(s: State, job: Job, code: Code, k: Knowledge) {
    !s.crashed && s.transitionFunc.None? && s.foreground == Pipeline(job, code) && Holds(s, k)
  }

  lemma LearntOfDisk(s: State, instr: Instr, k: Knowledge, io: Io)
    requires Holds(s, k) && io.ok && !instr.RestoreBackup?
    ensures var k', d := Learnt(instr, k, io), DiskAfter(s, instr, io);
      (k'.conf.Some? ==> d.conf == k'.conf.value) && (k'.recovery.Some? ==> d.recovery == k'.recovery.value)
  {
  }

  lemma LearntOfProcess(s: State, instr: Instr, k: Knowledge, io: Io)
    requires Holds(s, k) && io.ok && !instr.RestoreBackup?
    ensures var k' := Learnt(instr, k, io);
      && (k'.process.Some? ==> PostgresAfter(s, instr, io) == k'.process)
      && (k'.options.Some? ==> OptionsAfter(s, instr, io) == k'.options.value)
  {
  }

  lemma LearntHolds(s: State, instr: Instr, k: Knowledge, io: Io)
    requires Holds(s, k) && io.ok && !instr.RestoreBackup?
    ensures Holds(Perform(s, instr, io), Learnt(instr, k, io))
  {
    LearntOfDisk(s, instr, k, io);
    LearntOfProcess(s, instr, k, io);
  }

  /** What the check that a pipeline ends with leaves to be cancelled. */
  predicate LeftWatching(s: State, stdby: Option<string>) {
    if stdby.None? then s.transitionFunc.None?
    else s.transitionFunc.Some? && s.transitionFunc.value in s.background
         && s.background[s.transitionFunc.value] == NotStarted(stdby.value)
  }

  /** A call that was answered with success, with what is known then. */
  predicate Answered(s: State, s': State, job: Job, k: Knowledge, stdby: Option<string>) {
    && !s'.crashed && !s'.transitioning && s'.foreground.NoPipeline? && s'.answer == Some(Answer(job, true))
    && Kept(s, s', job, true)
    && (k.process.Some? ==> s'.postgres == k.process)
    && LeftWatching(s', stdby)
  }

  /** One step that works, in the middle of a pipeline. */
  lemma StepWorks(s: State, job: Job, code: Code, k: Knowledge, io: Io)
    requires Underway(s, job, code, k) && code.Step? && code.next.Step? && Passable(code, k, io) && io.ok
    ensures var s' := Next(s, Advance(io));
      && Underway(s', job, code.next, Learnt(code.instr, k, io))
      && s'.running == s.running && s'.pgConfig == s.pgConfig && s'.appliedPgConfig == s.appliedPgConfig
  {
    if !code.instr.CancelTransitioning? {
      LearntHolds(s, code.instr, k, io);
      assert Passes(s, code.instr, io);
      assert !Perform(s, code.instr, io).crashed;
    }
  }

  lemma FinishAnswers(s: State, job: Job, k: Knowledge, stdby: Option<string>)
    requires !s.crashed && Holds(s, k)
    requires LeftWatching(s, stdby)
    ensures Answered(s, Finish(s, job, true), job, k, stdby)
  {
  }

  lemma CheckBegins(s: State, stdby: string, io: Io)
    ensures var s' := Perform(s, StartReplCheck(stdby), io);
      && s' == WithCheck(s, stdby) && s'.transitionFunc == Some(s.nextId)
      && s.nextId in s'.background && s'.background[s.nextId] == NotStarted(stdby)
  {
  }

  lemma NothingElseBegins(s: State, instr: Instr, io: Io)
    requires !instr.StartReplCheck?
    ensures var s' := Perform(s, instr, io);
      s'.transitionFunc == s.transitionFunc && (s'.crashed <==> s.crashed || (instr.Sighup? && s.postgres.None?))
  {
  }

  lemma LastPerformed(s: State, job: Job, code: Code, k: Knowledge, io: Io)
    requires Underway(s, job, code, k) && code.Step? && code.next.Done? && Passable(code, k, io) && io.ok
    ensures var s1 := Perform(s, code.instr, io);
      !s1.crashed && LeftWatching(s1, WatchedAtEnd(code))
  {
    if code.instr.StartReplCheck? {
      CheckBegins(s, code.instr.stdby, io);
    } else {
      NothingElseBegins(s, code.instr, io);
      assert WatchedAtEnd(code.next) == None;
    }
  }

  lemma LastJump(s: State, job: Job, code: Code, io: Io)
    requires !s.crashed && s.foreground == Pipeline(job, code) && code.Step? && code.next.Done? && io.ok
    requires !code.instr.CancelTransitioning? && !code.instr.AwaitDone? && !Perform(s, code.instr, io).crashed
    ensures Next(s, Advance(io)) == Finish(Perform(s, code.instr, io), job, true)
  {
    assert Passes(s, code.instr, io);
  }

  /** The last one. */
  lemma LastStepWorks(s: State, job: Job, code: Code, k: Knowledge, io: Io)
    requires Underway(s, job, code, k) && code.Step? && code.next.Done? && Passable(code, k, io) && io.ok
    requires !code.instr.CancelTransitioning?
    ensures Answered(s, Next(s, Advance(io)), job, Learnt(code.instr, k, io), WatchedAtEnd(code))
  {
    var s1 := Perform(s, code.instr, io);
    LearntHolds(s, code.instr, k, io);
    LastPerformed(s, job, code, k, io);
    LastJump(s, job, code, io);
    FinishAnswers(s1, job, Learnt(code.instr, k, io), WatchedAtEnd(code));
    AnsweredBefore(s, s1, Finish(s1, job, true), job, Learnt(code.instr, k, io), WatchedAtEnd(code));
  }

  lemma AnsweredBefore(s: State, s1: State, s': State, job: Job, k: Knowledge, stdby: Option<string>)
    requires Answered(s1, s', job, k, stdby)
    requires s1.running == s.running && s1.pgConfig == s.pgConfig && s1.appliedPgConfig == s.appliedPgConfig
    ensures Answered(s, s', job, k, stdby)
  {
  }

  predicate EndsProperly(code: Code) {
    code.Step? && !(code.instr.CancelTransitioning? && code.next.Done?) && (code.next.Step? ==> EndsProperly(code.next))
  }

  lemma {:induction false} AllWorks(s: State, job: Job, code: Code, k: Knowledge, io: Io) returns (events: seq<Event>)
    requires Underway(s, job, code, k) && Passable(code, k, io) && EndsProperly(code) && io.ok
    ensures Answered(s, Run(s, events), job, AtEnd(code, k, io), WatchedAtEnd(code))
    decreases code
  {
    var s' := Next(s, Advance(io));
    if code.next.Step? {
      StepWorks(s, job, code, k, io);
      events := AllWorks(s', job, code.next, Learnt(code.instr, k, io), io);
    } else {
      LastStepWorks(s, job, code, k, io);
      events := [];
    }
    assert ([Advance(io)] + events)[1..] == events;
    events := [Advance(io)] + events;
  }

  // --- The four pipelines

  /** With a restart that works, Postgres runs with the files as they are. */
  lemma RestartEnds(next: Code, otherwise: Code, k: Knowledge, io: Io)
    requires k.conf.Some? && k.recovery.Some?
    requires EndsProperly(next) || next.Done?
    requires Passable(next, Started(k, io), io)
    ensures var code := RestartCode(next, otherwise);
      && EndsProperly(code) && Passable(code, k, io)
      && AtEnd(code, k, io) == AtEnd(next, Started(k, io), io) && WatchedAtEnd(code) == WatchedAtEnd(next)
  {
    var await := Step(AwaitStart, next, otherwise);
    var start := StartCode(next, otherwise);
    var stop := Step(StopPostgres, start, otherwise);
    var k1 := k.(process := None);
    var k2 := Started(k, io);
    assert Learnt(SpawnPostgres, k1, io) == k2;
    assert EndsProperly(await) && Passable(await, k2, io) && AtEnd(await, k2, io) == AtEnd(next, k2, io);
    assert EndsProperly(start) && Passable(start, k1, io) && AtEnd(start, k1, io) == AtEnd(next, k2, io);
    assert EndsProperly(stop) && Passable(stop, k, io) && AtEnd(stop, k, io) == AtEnd(next, k2, io);
    assert WatchedAtEnd(await) == WatchedAtEnd(start) == WatchedAtEnd(stop) == WatchedAtEnd(next);
  }

  function Started(k: Knowledge, io: Io): Knowledge
    requires k.conf.Some? && k.recovery.Some?
  {
    k.(options := Some(io.options), process := Some(Process(k.conf.value, k.recovery.value, true)))
  }

  /** One step before a pipeline. */
  lemma Before(instr: Instr, code: Code, otherwise: Code, k: Knowledge, io: Io)
    requires !instr.AwaitDone? && !instr.RestoreBackup? && !instr.Sighup? && !instr.StartReplCheck?
    requires EndsProperly(code) && Passable(code, Learnt(instr, k, io), io)
    ensures var all := Step(instr, code, otherwise);
      && EndsProperly(all) && Passable(all, k, io)
      && AtEnd(all, k, io) == AtEnd(code, Learnt(instr, k, io), io) && WatchedAtEnd(all) == WatchedAtEnd(code)
  {
  }

  lemma StandbyConfEnds(next: Code, otherwise: Code, k: Knowledge, io: Io)
    requires EndsProperly(next) && Passable(next, Written(k, StandbyUpdates(), true, io), io)
    ensures var code, k' := StandbyConfCode(next, otherwise), Written(k, StandbyUpdates(), true, io);
      && EndsProperly(code) && Passable(code, k, io)
      && AtEnd(code, k, io) == AtEnd(next, k', io) && WatchedAtEnd(code) == WatchedAtEnd(next)
  {
    var k1 := k.(options := Some(io.options));
    var k2 := k1.(recovery := Some(true));
    var c2 := Step(UpdatePgConf(StandbyUpdates()), next, otherwise);
    Before(UpdatePgConf(StandbyUpdates()), next, otherwise, k2, io);
    Before(UpdateRecoveryConf, c2, otherwise, k1, io);
    Before(ResolveVersionedPaths, Step(UpdateRecoveryConf, c2, otherwise), otherwise, k, io);
  }

  /** After the options were read and both files written. */
  function Written(k: Knowledge, updates: Conf, recovery: bool, io: Io): Knowledge {
    Knowledge(Some(io.options), Some(UpdatedPgConf(io.shipped, io.options, updates)), Some(recovery), k.process)
  }

  lemma StandbyEnds(io: Io)
    ensures EndsProperly(StandbyCode()) && Passable(StandbyCode(), NOTHING_YET, io) && WatchedAtEnd(StandbyCode()) == None
    ensures AtEnd(StandbyCode(), NOTHING_YET, io).process ==
      Some(Process(UpdatedPgConf(io.shipped, io.options, StandbyUpdates()), true, true))
  {
    var k := Knowledge(None, Some(io.left.conf), Some(io.left.recovery), None);
    var restart := RestartCode(Done, RestoreCode());
    var k' := Written(k, StandbyUpdates(), true, io);
    RestartEnds(Done, RestoreCode(), k', io);
    assert AtEnd(Done, Started(k', io), io) == Started(k', io) && WatchedAtEnd(Done) == None;
    StandbyConfEnds(restart, RestoreCode(), k, io);
    StoppedFirst(StandbyConfCode(restart, RestoreCode()), io);
  }

  lemma StoppedFirst(code: Code, io: Io)
    requires var k := Knowledge(None, Some(io.left.conf), Some(io.left.recovery), None);
      EndsProperly(code) && Passable(code, k, io)
    ensures var k := Knowledge(None, Some(io.left.conf), Some(io.left.recovery), None);
      var all := Step(CancelTransitioning, Step(StopPostgres, Step(AssertDataset, code, Fail), Fail), Fail);
      && EndsProperly(all) && Passable(all, NOTHING_YET, io)
      && AtEnd(all, NOTHING_YET, io) == AtEnd(code, k, io) && WatchedAtEnd(all) == WatchedAtEnd(code)
  {
    Before(AssertDataset, code, Fail, NOTHING_YET, io);
    Before(StopPostgres, Step(AssertDataset, code, Fail), Fail, NOTHING_YET, io);
    Before(CancelTransitioning, Step(StopPostgres, Step(AssertDataset, code, Fail), Fail), Fail, NOTHING_YET, io);
  }

  /** The name by which a standby is watched; an empty one is not. */
  function NameOf(stdby: Option<string>): Option<string> {
    if stdby == Some("") then None else stdby
  }

  lemma CheckEnds(stdby: Option<string>, k: Knowledge, io: Io)
    ensures var code := Step(CreateSnapshot, StartReplCheckCode(stdby), Fail);
      EndsProperly(code) && Passable(code, k, io) && AtEnd(code, k, io) == k && WatchedAtEnd(code) == NameOf(stdby)
  {
    if NameOf(stdby).Some? {
      assert StartReplCheckCode(stdby) == Step(StartReplCheck(stdby.value), Done, Fail);
      assert AtEnd(StartReplCheckCode(stdby), k, io) == k;
    }
  }

  lemma PrimaryConfEnds(code: Code, onwm: bool, k: Knowledge, io: Io)
    requires k.options == Some(io.options)
    requires EndsProperly(code) && Passable(code, Written(k, PrimaryUpdates(onwm), false, io), io)
    ensures var all := Step(DeleteRecoveryConf, Step(UpdatePgConf(PrimaryUpdates(onwm)), code, Fail), Fail);
      var k' := Written(k, PrimaryUpdates(onwm), false, io);
      && EndsProperly(all) && Passable(all, k, io)
      && AtEnd(all, k, io) == AtEnd(code, k', io) && WatchedAtEnd(all) == WatchedAtEnd(code)
  {
    var k1 := k.(recovery := Some(false));
    Before(UpdatePgConf(PrimaryUpdates(onwm)), code, Fail, k1, io);
    Before(DeleteRecoveryConf, Step(UpdatePgConf(PrimaryUpdates(onwm)), code, Fail), Fail, k, io);
  }

  lemma PrimaryStartEnds(stdby: Option<string>, k: Knowledge, io: Io)
    requires k.conf.Some? && k.recovery.Some?
    ensures var code := RestartCode(Step(CreateSnapshot, StartReplCheckCode(stdby), Fail), Fail);
      && EndsProperly(code) && Passable(code, k, io)
      && AtEnd(code, k, io) == Started(k, io) && WatchedAtEnd(code) == NameOf(stdby)
  {
    CheckEnds(stdby, Started(k, io), io);
    RestartEnds(Step(CreateSnapshot, StartReplCheckCode(stdby), Fail), Fail, k, io);
  }

  lemma PrimaryEnds(stdby: Option<string>, onwm: bool, io: Io)
    ensures var code, updates := PrimaryCode(stdby, onwm), if onwm then map[] else map[READ_ONLY := "on"];
      && EndsProperly(code) && Passable(code, NOTHING_YET, io) && WatchedAtEnd(code) == NameOf(stdby)
      && AtEnd(code, NOTHING_YET, io).process == Some(Process(UpdatedPgConf(io.shipped, io.options, updates), false, true))
  {
    var k := Knowledge(None, Some(io.left.conf), Some(io.left.recovery), None);
    var k1 := k.(options := Some(io.options), conf := Some(io.shipped));
    var start := RestartCode(Step(CreateSnapshot, StartReplCheckCode(stdby), Fail), Fail);
    var conf := Step(DeleteRecoveryConf, Step(UpdatePgConf(PrimaryUpdates(onwm)), start, Fail), Fail);
    PrimaryStartEnds(stdby, Written(k1, PrimaryUpdates(onwm), false, io), io);
    PrimaryConfEnds(start, onwm, k1, io);
    DataDirEnds(conf, k, io);
    StoppedFirst(Step(StatDataDir, Step(ChownDataDir, Step(ChmodDataDir, Step(InitDb, conf, Fail), Fail), Fail), Fail), io);
  }

  lemma DataDirEnds(code: Code, k: Knowledge, io: Io)
    requires var k' := k.(options := Some(io.options), conf := Some(io.shipped));
      EndsProperly(code) && Passable(code, k', io)
    ensures var k' := k.(options := Some(io.options), conf := Some(io.shipped));
      var all := Step(StatDataDir, Step(ChownDataDir, Step(ChmodDataDir, Step(InitDb, code, Fail), Fail), Fail), Fail);
      && EndsProperly(all) && Passable(all, k, io)
      && AtEnd(all, k, io) == AtEnd(code, k', io) && WatchedAtEnd(all) == WatchedAtEnd(code)
  {
    var c1 := Step(InitDb, code, Fail);
    var c2 := Step(ChmodDataDir, c1, Fail);
    var c3 := Step(ChownDataDir, c2, Fail);
    Before(InitDb, code, Fail, k, io);
    Before(ChmodDataDir, c1, Fail, k, io);
    Before(ChownDataDir, c2, Fail, k, io);
    Before(StatDataDir, c3, Fail, k, io);
  }

  /** A primary that changes its standby loads the file that it writes, with the options that it has. */
  lemma UpdateEnds(stdby: string, options: Conf, p: Process, io: Io)
    ensures var code := UpdateStandbyCode(stdby);
      var k := Knowledge(Some(options), None, None, Some(p));
      && EndsProperly(code) && Passable(code, k, io) && WatchedAtEnd(code) == NameOf(Some(stdby))
      && AtEnd(code, k, io).process == Some(p.(conf := UpdatedPgConf(io.shipped, options, UpdatesFor(stdby))))
  {
    var k := Knowledge(Some(options), None, None, Some(p));
    var conf := UpdatedPgConf(io.shipped, options, UpdatesFor(stdby));
    var k1 := k.(conf := Some(conf));
    var k2 := k1.(process := Some(p.(conf := conf)));
    var check := StartReplCheckCode(Some(stdby));
    if stdby != "" {
      assert check == Step(StartReplCheck(stdby), Done, Fail) && AtEnd(check, k2, io) == k2;
    } else {
      assert check == Done;
    }
    var c1 := Step(Sighup, check, Fail);
    assert Learnt(Sighup, k1, io) == k2;
    assert EndsProperly(c1) && Passable(c1, k1, io);
    assert AtEnd(c1, k1, io) == AtEnd(check, k2, io) == k2;
    assert WatchedAtEnd(c1) == WatchedAtEnd(check) == NameOf(Some(stdby));
    Before(UpdatePgConf(UpdatesFor(stdby)), c1, Fail, k, io);
    Before(CancelTransitioning, Step(UpdatePgConf(UpdatesFor(stdby)), c1, Fail), Fail, k, io);
  }

  function UpdatesFor(stdby: string): Conf {
    var named: Conf := if stdby == "" then map[] else EnableWritesUpdates(stdby);
    named[READ_ONLY := "on"]
  }

  // --- Waiting for a check comes to an end

  /** The same call, with the rest of its pipeline, and nothing else changed that a call depends on. */
  predicate Resumed(s: State, s': State, code: Code)
    requires s.foreground.Pipeline? && s.postgres.Some?
  {
    && !s'.crashed && s'.transitionFunc.None? && s'.foreground == Pipeline(s.foreground.job, code)
    && s'.running == s.running && s'.pgConfig == s.pgConfig && s'.appliedPgConfig == s.appliedPgConfig
    && s'.postgres.Some? && s'.additionalPgOptions == s.additionalPgOptions
    && s'.postgres.value.recovery == s.postgres.value.recovery && s'.postgres.value.heard == s.postgres.value.heard
  }

  lemma WaitingStep(s: State, id: nat)
    requires Inv(s) && Awaiting(s, id) && !s.crashed && s.postgres.Some? && id in s.background
    requires !s.background[id].Signalling?
    ensures var s' := Next(s, NextStep(s, id));
      && !s'.crashed && s'.foreground == s.foreground && s'.postgres == s.postgres
      && s'.running == s.running && s'.pgConfig == s.pgConfig && s'.appliedPgConfig == s.appliedPgConfig
      && s'.additionalPgOptions == s.additionalPgOptions
      && id in s'.background && StepsLeft(s'.background[id]) < StepsLeft(s.background[id])
  {
  }

  lemma SignalResumes(s: State, id: nat)
    requires Inv(s) && Awaiting(s, id) && !s.crashed && s.postgres.Some? && id in s.background
    requires s.background[id].Signalling? && s.foreground.code.next.Step?
    ensures Resumed(s, Next(s, Signals(id)), s.foreground.code.next)
  {
    var s1 := Hup(s).(background := s.background - {id}, transitionFunc := None);
    assert Next(s, Signals(id)) == Jump(s1, s.foreground.code.next);
  }

  lemma {:induction false} WaitingResumes(s: State, id: nat) returns (events: seq<Event>)
    requires Inv(s) && Awaiting(s, id) && !s.crashed && s.postgres.Some? && s.foreground.code.next.Step?
    ensures Resumed(s, Run(s, events), s.foreground.code.next)
    decreases if id in s.background then StepsLeft(s.background[id]) else 0
  {
    AwaitedIsAlive(s, id);
    var e := NextStep(s, id);
    if s.background[id].Signalling? {
      SignalResumes(s, id);
      events := [];
    } else {
      WaitingStep(s, id);
      NextKeeps(s, e);
      events := WaitingResumes(Next(s, e), id);
    }
    assert ([e] + events)[1..] == events;
    events := [e] + events;
  }

  /** A cancel that has to wait. */
  lemma CancelBegins(s: State, io: Io)
    requires Inv(s) && !s.crashed && s.transitionFunc.Some? && s.foreground.Pipeline? && CancelsFirst(s.foreground.code)
    ensures var s' := Next(s, Advance(io));
      && Inv(s') && !s'.crashed && Awaiting(s', s.transitionFunc.value)
      && s'.foreground.job == s.foreground.job && s'.foreground.code.next == s.foreground.code.next
      && s'.running == s.running && s'.pgConfig == s.pgConfig && s'.appliedPgConfig == s.appliedPgConfig
      && s'.postgres == s.postgres && s'.additionalPgOptions == s.additionalPgOptions
  {
    NextKeeps(s, Advance(io));
  }

  lemma ResumedOnce(s: State, io: Io) returns (events: seq<Event>)
    requires Inv(s) && !s.crashed && s.transitionFunc.Some? && s.postgres.Some?
    requires s.foreground.Pipeline? && CancelsFirst(s.foreground.code) && s.foreground.code.next.Step?
    ensures Resumed(s, Run(s, events), s.foreground.code.next)
  {
    var s' := Next(s, Advance(io));
    CancelBegins(s, io);
    events := WaitingResumes(s', s.transitionFunc.value);
    assert ([Advance(io)] + events)[1..] == events;
    events := [Advance(io)] + events;
  }

  lemma {:induction false} RunOn(s: State, before: seq<Event>, after: seq<Event>)
    ensures Run(s, before + after) == Run(Run(s, before), after)
    decreases |before|
  {
    if before == [] {
      assert before + after == after;
    } else {
      assert (before + after)[1..] == before[1..] + after;
      RunOn(Next(s, before[0]), before[1..], after);
    }
  }

  // --- What calls come to

  /** A pipeline that was begun can be answered with success, whether or not it has to wait for a check first. */
  lemma BegunSucceeds(s: State, code: Code, k: Knowledge, io: Io) returns (events: seq<Event>)
    requires Inv(s) && !s.crashed && s.foreground.Pipeline? && s.foreground.code == code && CancelsFirst(code)
    requires code.next.Step? && EndsProperly(code) && Passable(code, k, io) && io.ok
    requires s.transitionFunc.Some? ==> s.postgres.Some? && k == NOTHING_YET
    requires Holds(s, k)
    ensures Answered(s, Run(s, events), s.foreground.job, AtEnd(code, k, io), WatchedAtEnd(code))
  {
    if s.transitionFunc.None? {
      events := AllWorks(s, s.foreground.job, code, k, io);
    } else {
      var before := ResumedOnce(s, io);
      var s' := Run(s, before);
      assert Holds(s', NOTHING_YET);
      var after := AllWorks(s', s.foreground.job, code.next, NOTHING_YET, io);
      RunOn(s, before, after);
      AnsweredBefore(s, s', Run(s', after), s.foreground.job, AtEnd(code, k, io), WatchedAtEnd(code));
      events := before + after;
    }
  }

  /** The process that a role comes to, with the files and tunables as they are then. */
  function Target(config: Config, onwm: bool, io: Io): Process {
    if config.role.Primary? then
      Process(UpdatedPgConf(io.shipped, io.options, if onwm then map[] else map[READ_ONLY := "on"]), false, true)
    else Process(UpdatedPgConf(io.shipped, io.options, map[SYNCHRONOUS_COMMIT := "off"]), true, true)
  }

  function PgUrl(config: Config): Option<string> {
    if config.role.Primary? && config.downstream.Some? then NameOf(Some(config.downstream.value.pgUrl)) else None
  }

  lemma FullSucceeds(s: State, config: Config, io: Io) returns (events: seq<Event>)
    requires Inv(s) && !s.crashed && s.foreground.Pipeline? && s.foreground.code == FullCode(s, config) && io.ok
    requires s.transitionFunc.Some? ==> s.postgres.Some?
    ensures var s' := Run(s, events);
      && !s'.crashed && !s'.transitioning && s'.answer == Some(Answer(s.foreground.job, true))
      && Kept(s, s', s.foreground.job, true) && LeftWatching(s', PgUrl(config))
      && s'.postgres == Some(Target(config, s.oneNodeWriteMode, io))
  {
    if config.role.Primary? {
      PrimaryEnds(if config.downstream.Some? then Some(config.downstream.value.pgUrl) else None, s.oneNodeWriteMode, io);
    } else {
      StandbyEnds(io);
    }
    FullCodeAdmitted(s, config);
    events := BegunSucceeds(s, FullCode(s, config), NOTHING_YET, io);
  }

  lemma RunFirst(s: State, e: Event, events: seq<Event>)
    ensures Run(s, [e] + events) == Run(Next(s, e), events)
  {
    assert ([e] + events)[1..] == events;
  }

  /**
   * A start that is not refused can succeed: Postgres then runs in its role with exactly the configuration for it, made of
   * the shipped file, the tunables and the role's updates; the manager takes it as running; and a primary's standby is
   * watched.
   */
  lemma StartCanSucceed(s: State, config: Config, io: Io) returns (events: seq<Event>)
    requires Inv(s) && !s.crashed && !s.transitioning && !s.running && s.pgConfig == Some(config) && !config.role.NoRole?
    requires io.ok && (s.transitionFunc.Some? ==> s.postgres.Some?)
    ensures var s' := Run(s, [Start] + events);
      && !s'.crashed && s'.answer == Some(Answer(Starting(config), true))
      && s'.running && s'.pgConfig == Some(config) && s'.appliedPgConfig && LeftWatching(s', PgUrl(config))
      && s'.postgres == Some(Target(config, s.oneNodeWriteMode, io))
  {
    var s1 := Next(s, Start);
    NextKeeps(s, Start);
    assert s1 == Begin(s, Starting(config), FullCode(s, config));
    events := FullSucceeds(s1, config, io);
    RunFirst(s, Start, events);
  }

  /** So can a full reconfiguration. */
  lemma ReconfigureCanSucceed(s: State, config: Config, io: Io) returns (events: seq<Event>)
    requires Inv(s) && !s.crashed && !s.transitioning && s.running && WellFormed(config, s.oneNodeWriteMode)
    requires !config.role.NoRole? && io.ok && (s.transitionFunc.Some? ==> s.postgres.Some?)
    requires !(s.postgres.Some? && s.pgConfig.Some? && s.pgConfig.value.role.Primary? && config.role.Primary?)
    ensures var s' := Run(s, [Reconfigure(config)] + events);
      && !s'.crashed && s'.answer == Some(Answer(Reconfiguring(config), true))
      && s'.running && s'.pgConfig == Some(config) && s'.appliedPgConfig && LeftWatching(s', PgUrl(config))
      && s'.postgres == Some(Target(config, s.oneNodeWriteMode, io))
  {
    var s1 := Next(s, Reconfigure(config));
    NextKeeps(s, Reconfigure(config));
    assert s1 == Begin(s, Reconfiguring(config), FullCode(s, config));
    events := FullSucceeds(s1, config, io);
    RunFirst(s, Reconfigure(config), events);
  }

  lemma UpdateSucceeds(s: State, stdby: string, io: Io) returns (events: seq<Event>)
    requires Inv(s) && !s.crashed && s.foreground.Pipeline? && s.foreground.code == UpdateStandbyCode(stdby) && io.ok
    requires s.postgres.Some?
    ensures var s' := Run(s, events);
      && !s'.crashed && !s'.transitioning && s'.answer == Some(Answer(s.foreground.job, true))
      && Kept(s, s', s.foreground.job, true) && LeftWatching(s', NameOf(Some(stdby)))
      && s'.postgres == Some(s.postgres.value.(conf := UpdatedPgConf(io.shipped, s.additionalPgOptions, UpdatesFor(stdby))))
  {
    var before: seq<Event> := [];
    var s', code := s, UpdateStandbyCode(stdby);
    if s.transitionFunc.Some? {
      before := ResumedOnce(s, io);
      s', code := Run(s, before), code.next;
    }
    var k := Knowledge(Some(s.additionalPgOptions), None, None, s'.postgres);
    UpdateEnds(stdby, s.additionalPgOptions, s'.postgres.value, io);
    assert Learnt(CancelTransitioning, k, io) == k;
    var after := AllWorks(s', s.foreground.job, code, k, io);
    RunOn(s, before, after);
    events := before + after;
  }

  /** A primary's change of standby can succeed without a restart: the process loads a file that names the new one. */
  lemma ChangeCanSucceed(s: State, config: Config, io: Io) returns (events: seq<Event>)
    requires Inv(s) && !s.crashed && !s.transitioning && s.running && WellFormed(config, s.oneNodeWriteMode) && io.ok
    requires s.postgres.Some? && s.pgConfig.Some? && s.pgConfig.value.role.Primary?
    requires config.role.Primary? && config.downstream.Some?
    ensures var s' := Run(s, [Reconfigure(config)] + events);
      var stdby := config.downstream.value.pgUrl;
      && !s'.crashed && s'.answer == Some(Answer(ChangingStandby(config), true))
      && s'.running && s'.pgConfig == Some(config) && s'.appliedPgConfig && LeftWatching(s', PgUrl(config))
      && s'.postgres == Some(s.postgres.value.(conf := UpdatedPgConf(io.shipped, s.additionalPgOptions, UpdatesFor(stdby))))
  {
    var stdby := config.downstream.value.pgUrl;
    var s1 := Next(s, Reconfigure(config));
    NextKeeps(s, Reconfigure(config));
    assert s1 == Begin(s, ChangingStandby(config), UpdateStandbyCode(stdby));
    events := UpdateSucceeds(s1, stdby, io);
    RunFirst(s, Reconfigure(config), events);
  }

  /** And a stop. */
  lemma StopCanSucceed(s: State, io: Io)
    requires Inv(s) && !s.crashed && !s.transitioning && s.running && io.ok
    ensures var s' := Run(s, [Stop, Advance(io)]);
      && !s'.crashed && s'.answer == Some(Answer(Stopping, true))
      && !s'.running && s'.postgres.None? && s'.pgConfig == s.pgConfig
  {
    StoppingStops(s, io);
    assert [Stop, Advance(io)] == [Stop] + [Advance(io)];
    RunFirst(s, Stop, [Advance(io)]);
    RunFirst(Next(s, Stop), Advance(io), []);
    assert [Advance(io)] + [] == [Advance(io)];
    assert Stopped(s, io).pgConfig == s.pgConfig by {
      PgRoles.EndingAnswers(Next(s, Stop), Advance(io));
    }
  }

  /** While nothing runs a configuration is only remembered, and it is what the next start is for. */
  lemma RememberedIsStarted(s: State, config: Config, io: Io) returns (events: seq<Event>)
    requires Inv(s) && !s.crashed && !s.transitioning && !s.running && WellFormed(config, s.oneNodeWriteMode)
    requires !config.role.NoRole? && io.ok && (s.transitionFunc.Some? ==> s.postgres.Some?)
    ensures SameWorld(s, Next(s, Reconfigure(config))) && !Next(s, Reconfigure(config)).transitioning
    ensures var s' := Run(s, [Reconfigure(config)] + ([Start] + events));
      && !s'.crashed && s'.answer == Some(Answer(Starting(config), true)) && s'.running && s'.pgConfig == Some(config)
      && s'.postgres == Some(Target(config, s.oneNodeWriteMode, io))
  {
    var s1 := Next(s, Reconfigure(config));
    NextKeeps(s, Reconfigure(config));
    events := StartCanSucceed(s1, config, io);
    RunFirst(s, Reconfigure(config), [Start] + events);
  }

  /** The role 'none' is taken on at once, and Postgres is left alone. */
  lemma NoneLeavesPostgresAlone(s: State, config: Config)
    requires !s.crashed && !s.transitioning && s.running && WellFormed(config, s.oneNodeWriteMode) && config.role.NoRole?
    ensures var s' := Next(s, Reconfigure(config));
      SameWorld(s, s') && s'.pgConfig == Some(config) && s'.appliedPgConfig && s'.running && !s'.transitioning
  {
  }

  // --- Which configurations are asked for

  /** The configuration of the peer at this place of the replication chain: the primary, the sync, and the asyncs. */
  function ConfigAt(chain: seq<Peer>, i: nat): Config
    requires i < |chain|
  {
    if i == 0 then Config(Primary, None, if |chain| > 1 then Some(chain[1]) else None)
    else Config(if i == 1 then Sync else Async, Some(chain[i - 1]), None)
  }

  /** Each place in a chain gives a configuration that `reconfigure` takes; in one-node-write mode a primary is alone. */
  lemma ChainsAreWellFormed(chain: seq<Peer>, i: nat, oneNodeWriteMode: bool)
    requires i < |chain|
    ensures WellFormed(ConfigAt(chain, i), oneNodeWriteMode) <==> !(oneNodeWriteMode && i == 0 && |chain| > 1)
    ensures WellFormed(Config(NoRole, None, None), oneNodeWriteMode)
  {
  }

  /** And those are all that it takes. */
  lemma WellFormedComeFromChains(config: Config, self: Peer, other: Peer) returns (chain: seq<Peer>, i: nat)
    requires WellFormed(config, false)
    ensures config == Config(NoRole, None, None) || (i < |chain| && ConfigAt(chain, i) == config)
  {
    match config.role
    case Primary =>
      chain, i := if config.downstream.Some? then [self, config.downstream.value] else [self], 0;
    case Sync =>
      chain, i := [config.upstream.value, self], 1;
    case Async =>
      chain, i := [other, config.upstream.value, self], 2;
    case NoRole =>
      chain, i := [], 0;
  }
}
