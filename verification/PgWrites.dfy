/** When a primary may begin to accept writes, and that a cancelled check always ends. */
module PgWrites {
  import opened Wrappers
  import opened PgSettings
  import opened ReplicationCheck
  import opened PgMachine
  import opened PgSafety

  // --- Writes stay disabled until a check reports success or is cancelled

  /** No process accepts writes. */
  predicate WritesDisabled(s: State) {
    (s.postgres.Some? ==> Shut(s.postgres.value)) && forall p :: p in s.orphans ==> Shut(p)
  }

  /** No background check has got past its waiting for the standby. */
  predicate AllWaiting(s: State) {
    forall id :: id in s.background ==> s.background[id].NotStarted? || s.background[id].Checking?
  }

  /** The standby has flushed all that was sent to it, as the check `id` sees it. */
  predicate ReportsCaughtUp(s: State, e: Event) {
    && e.CheckPolls? && e.id in s.background && s.background[e.id].Checking?
    && ShowsCaughtUp(e.poll.reply)
  }

  /** A new configuration cancels the check. */
  predicate CancelsCheck(s: State, e: Event) {
    && e.Advance? && s.foreground.Pipeline? && s.foreground.code.Step?
    && (s.foreground.code.instr.CancelTransitioning? || s.foreground.code.instr.AwaitDone?)
    && exists id :: id in s.background && s.background[id].Checking?
  }

  lemma PerformKeepsDisabled(s: State, instr: Instr, io: Io)
    requires WorldInv(s) && Allows(instr, Known(s)) && WritesDisabled(s) && AllWaiting(s)
    ensures WritesDisabled(Perform(s, instr, io)) && AllWaiting(Perform(s, instr, io))
  {
  }

  lemma JumpKeepsDisabled(s: State, code: Code)
    requires WritesDisabled(s) && AllWaiting(s)
    ensures WritesDisabled(Jump(s, code)) && AllWaiting(Jump(s, code))
  {
  }

  lemma AdvanceKeepsDisabled(s: State, io: Io)
    requires Inv(s) && !s.crashed && WritesDisabled(s) && AllWaiting(s)
    requires !CancelsCheck(s, Advance(io))
    ensures WritesDisabled(AdvancePipeline(s, io)) && AllWaiting(AdvancePipeline(s, io))
  {
    if s.foreground.Pipeline? {
      var code := s.foreground.code;
      if code.instr.CancelTransitioning? {
        JumpKeepsDisabled(s, code.next);
      } else if !code.instr.AwaitDone? {
        PerformKeepsDisabled(s, code.instr, io);
        JumpKeepsDisabled(Perform(s, code.instr, io), if Passes(s, code.instr, io) then code.next else code.otherwise);
      }
    }
  }

  lemma PollKeepsDisabled(s: State, id: nat, poll: Poll)
    requires !s.crashed && WritesDisabled(s) && AllWaiting(s)
    requires !ReportsCaughtUp(s, CheckPolls(id, poll))
    ensures WritesDisabled(PollCheck(s, id, poll)) && AllWaiting(PollCheck(s, id, poll))
  {
  }

  /** The later steps of a check are not there to take. */
  lemma NothingToSignal(s: State, id: nat)
    requires AllWaiting(s)
    ensures SignalCheck(s, id) == s && forall io :: WriteEnablingConf(s, id, io) == s
  {
  }

  lemma CallKeepsDisabled(s: State, e: Event)
    requires !s.crashed && WritesDisabled(s) && AllWaiting(s)
    requires e.Start? || e.Stop? || e.Reconfigure?
    ensures WritesDisabled(Next(s, e)) && AllWaiting(Next(s, e))
  {
  }

  lemma ExitKeepsDisabled(s: State, e: Event)
    requires !s.crashed && WritesDisabled(s) && AllWaiting(s)
    requires e.CheckStarts? || e.PostgresExits? || e.StrayStop?
    ensures WritesDisabled(Next(s, e)) && AllWaiting(Next(s, e))
  {
  }

  lemma NextKeepsDisabled(s: State, e: Event)
    requires Inv(s) && WritesDisabled(s) && AllWaiting(s)
    requires !ReportsCaughtUp(s, e) && !CancelsCheck(s, e)
    ensures WritesDisabled(Next(s, e)) && AllWaiting(Next(s, e))
  {
    if !s.crashed {
      match e
      case Advance(io) => AdvanceKeepsDisabled(s, io);
      case CheckPolls(id, poll) => PollKeepsDisabled(s, id, poll);
      case WritesConf(id, io) => NothingToSignal(s, id);
      case Signals(id) => NothingToSignal(s, id);
      case Start => CallKeepsDisabled(s, e);
      case Stop => CallKeepsDisabled(s, e);
      case Reconfigure(_) => CallKeepsDisabled(s, e);
      case _ => ExitKeepsDisabled(s, e);
    }
  }

  /** No event of the run reports a standby caught up or cancels a check. */
  predicate NothingOpens(s: State, events: seq<Event>)
    decreases |events|
  {
    events == [] ||
    (!ReportsCaughtUp(s, events[0]) && !CancelsCheck(s, events[0]) && NothingOpens(Next(s, events[0]), events[1..]))
  }

  lemma {:induction false} RunKeepsDisabled(s: State, events: seq<Event>)
    requires Inv(s) && WritesDisabled(s) && AllWaiting(s) && NothingOpens(s, events)
    ensures WritesDisabled(Run(s, events))
    decreases |events|
  {
    if events != [] {
      NextKeepsDisabled(s, events[0]);
      NextKeeps(s, events[0]);
      RunKeepsDisabled(Next(s, events[0]), events[1..]);
    }
  }

  // --- A completed reconfiguration as primary leaves the check for its downstream running

  /** Every path to success ends by starting the check for `stdby`. */
  predicate Watches(code: Code, stdby: string) {
    match code
    case Done => false
    case Fail => true
    case Step(instr, next, otherwise) =>
      if instr.StartReplCheck? then instr.stdby == stdby && next.Done? && otherwise.Fail?
      else Watches(next, stdby) && Watches(otherwise, stdby)
  }

  function Downstream(job: Job): Option<string> {
    if !job.Stopping? && job.config.role.Primary? && job.config.downstream.Some? && job.config.downstream.value.pgUrl != ""
    then Some(job.config.downstream.value.pgUrl) else None
  }

  /** A pipeline that makes the node primary over a downstream will watch that downstream. */
  predicate WillWatch(s: State) {
    s.foreground.Pipeline? && Downstream(s.foreground.job).Some? ==>
      Watches(s.foreground.code, Downstream(s.foreground.job).value)
  }

  lemma RestartWatches(next: Code, stdby: string)
    requires Watches(next, stdby)
    ensures Watches(RestartCode(next, Fail), stdby)
  {
    assert Watches(Step(AwaitStart, next, Fail), stdby);
    assert Watches(StartCode(next, Fail), stdby);
  }

  lemma PrimaryWatches(stdby: string, onwm: bool)
    requires stdby != ""
    ensures Watches(PrimaryCode(Some(stdby), onwm), stdby)
  {
    var start := Step(CreateSnapshot, StartReplCheckCode(Some(stdby)), Fail);
    RestartWatches(start, stdby);
    var conf := Step(UpdatePgConf(PrimaryUpdates(onwm)), RestartCode(start, Fail), Fail);
    var dir := Step(InitDb, Step(DeleteRecoveryConf, conf, Fail), Fail);
    assert Watches(dir, stdby);
    var perms := Step(StatDataDir, Step(ChownDataDir, Step(ChmodDataDir, dir, Fail), Fail), Fail);
    assert Watches(perms, stdby);
    assert PrimaryCode(Some(stdby), onwm)
        == Step(CancelTransitioning, Step(StopPostgres, Step(AssertDataset, perms, Fail), Fail), Fail);
  }

  lemma UpdateStandbyWatches(stdby: string)
    requires stdby != ""
    ensures Watches(UpdateStandbyCode(stdby), stdby)
  {
    assert Watches(StartReplCheckCode(Some(stdby)), stdby);
    assert Watches(Step(Sighup, StartReplCheckCode(Some(stdby)), Fail), stdby);
  }

  lemma JumpWillWatch(s: State, code: Code)
    requires code.Step? && s.foreground.Pipeline? && Downstream(s.foreground.job).Some? ==>
               Watches(code, Downstream(s.foreground.job).value)
    ensures WillWatch(Jump(s, code))
  {
  }

  lemma StepWillWatch(s: State, io: Io, code: Code)
    requires WillWatch(s) && s.foreground.Pipeline? && s.foreground.code == code && code.Step?
    ensures var s', ok := Perform(s, code.instr, io), Passes(s, code.instr, io);
      WillWatch(Jump(s', if ok then code.next else code.otherwise))
  {
    var s', ok := Perform(s, code.instr, io), Passes(s, code.instr, io);
    JumpWillWatch(s', if ok then code.next else code.otherwise);
  }

  lemma AdvanceWillWatch(s: State, io: Io)
    requires WillWatch(s)
    ensures WillWatch(AdvancePipeline(s, io))
  {
    if s.foreground.Pipeline? && s.foreground.code.Step? {
      var code := s.foreground.code;
      if code.instr.CancelTransitioning? {
        if s.transitionFunc.None? {
          JumpWillWatch(s, code.next);
        }
      } else if !code.instr.AwaitDone? {
        StepWillWatch(s, io, code);
      }
    }
  }

  lemma DoneWillWatch(s: State, id: nat, ok: bool)
    requires WillWatch(s)
    ensures WillWatch(BackgroundDone(s, id, ok))
  {
    var s' := s.(background := s.background - {id}, transitionFunc := None);
    if s.foreground.Pipeline? && s.foreground.code.Step? && s.foreground.code.instr.AwaitDone? {
      JumpWillWatch(s', if ok then s.foreground.code.next else s.foreground.code.otherwise);
    }
  }

  lemma BeginWillWatch(s: State, config: Config)
    requires Downstream(Starting(config)).Some?
    ensures Watches(FullCode(s, config), Downstream(Starting(config)).value)
    ensures Watches(UpdateStandbyCode(config.downstream.value.pgUrl), Downstream(Starting(config)).value)
  {
    PrimaryWatches(config.downstream.value.pgUrl, s.oneNodeWriteMode);
    UpdateStandbyWatches(config.downstream.value.pgUrl);
  }

  lemma CallWillWatch(s: State, e: Event)
    requires WillWatch(s) && (e.Start? || e.Stop? || e.Reconfigure?)
    ensures WillWatch(Next(s, e))
  {
    if e.Start? && s.pgConfig.Some? && Downstream(Starting(s.pgConfig.value)).Some? {
      BeginWillWatch(s, s.pgConfig.value);
    }
    if e.Reconfigure? && Downstream(Starting(e.config)).Some? {
      BeginWillWatch(s, e.config);
    }
  }

  lemma PollWillWatch(s: State, id: nat, poll: Poll)
    requires WillWatch(s)
    ensures WillWatch(PollCheck(s, id, poll))
  {
    DoneWillWatch(s, id, false);
  }

  lemma WriteWillWatch(s: State, id: nat, io: Io)
    requires WillWatch(s)
    ensures WillWatch(WriteEnablingConf(s, id, io))
  {
    DoneWillWatch(s.(disk := s.disk.(conf := io.left.conf)), id, false);
  }

  lemma SignalWillWatch(s: State, id: nat)
    requires WillWatch(s)
    ensures WillWatch(SignalCheck(s, id))
  {
    DoneWillWatch(Hup(s), id, true);
  }

  lemma NextWillWatch(s: State, e: Event)
    requires WillWatch(s)
    ensures WillWatch(Next(s, e))
  {
    if !s.crashed {
      match e
      case Advance(io) => AdvanceWillWatch(s, io);
      case CheckStarts(id, now) =>
      case CheckPolls(id, poll) => PollWillWatch(s, id, poll);
      case WritesConf(id, io) => WriteWillWatch(s, id, io);
      case Signals(id) => SignalWillWatch(s, id);
      case PostgresExits =>
      case StrayStop(_) =>
      case _ => CallWillWatch(s, e);
    }
  }

  lemma {:induction false} RunWillWatch(s: State, events: seq<Event>)
    requires WillWatch(s)
    ensures WillWatch(Run(s, events))
    decreases |events|
  {
    if events != [] {
      NextWillWatch(s, events[0]);
      RunWillWatch(Next(s, events[0]), events[1..]);
    }
  }

  /** The event ends a pipeline with success, as primary over the downstream `stdby`. */
  predicate BecomesPrimary(s: State, e: Event, stdby: string) {
    && s.foreground.Pipeline? && Downstream(s.foreground.job) == Some(stdby)
    && Next(s, e).foreground.NoPipeline? && Next(s, e).answer == Some(Answer(s.foreground.job, true))
  }

  /** A check for exactly `stdby` is alive, is the one a cancel goes to, and writes are disabled. */
  predicate WatchedAndReadOnly(s: State, stdby: string) {
    && WritesDisabled(s)
    && s.transitionFunc.Some? && s.background == map[s.transitionFunc.value := NotStarted(stdby)]
  }

  lemma JumpSucceeds(s: State, code: Code)
    requires s.foreground.Pipeline? && Jump(s, code).foreground.NoPipeline?
    ensures code.Done? || Jump(s, code).answer == Some(Answer(s.foreground.job, false))
  {
  }

  lemma DoneDoesNotSucceed(s: State, id: nat, ok: bool)
    requires s.foreground.Pipeline? && s.foreground.code.Step?
    requires s.foreground.code.instr.AwaitDone? ==> !s.foreground.code.next.Done? && !s.foreground.code.otherwise.Done?
    requires BackgroundDone(s, id, ok).foreground.NoPipeline?
    ensures BackgroundDone(s, id, ok).answer == Some(Answer(s.foreground.job, false))
  {
    var s' := s.(background := s.background - {id}, transitionFunc := None);
    JumpSucceeds(s', if ok then s.foreground.code.next else s.foreground.code.otherwise);
  }

  /** A pipeline that will watch its downstream can only succeed by starting the check. */
  lemma SucceedsByWatching(s: State, e: Event, stdby: string)
    requires Inv(s) && WillWatch(s) && BecomesPrimary(s, e, stdby)
    ensures !s.crashed && e.Advance? && s.foreground.code.instr == StartReplCheck(stdby)
  {
    var code := s.foreground.code;
    assert Watches(code, stdby);
    if !code.instr.StartReplCheck? {
      assert Watches(code.next, stdby) && Watches(code.otherwise, stdby);
    }
    match e
    case Advance(io) =>
      if code.instr.CancelTransitioning? {
        JumpSucceeds(s, code.next);
      } else {
        var s', ok := Perform(s, code.instr, io), Passes(s, code.instr, io);
        JumpSucceeds(s', if ok then code.next else code.otherwise);
      }
    case CheckPolls(id, poll) => DoneDoesNotSucceed(s, id, false);
    case WritesConf(id, io) => DoneDoesNotSucceed(s.(disk := s.disk.(conf := io.left.conf)), id, false);
    case Signals(id) => DoneDoesNotSucceed(Hup(s), id, true);
    case _ =>
  }

  lemma PrimaryIsWatched(s: State, e: Event, stdby: string)
    requires Inv(s) && WillWatch(s) && BecomesPrimary(s, e, stdby)
    ensures WatchedAndReadOnly(Next(s, e), stdby)
  {
    SucceedsByWatching(s, e, stdby);
    assert Known(s).quiet && Known(s).shut;
    var id := s.nextId;
    assert Next(s, e).background == map[id := NotStarted(stdby)];
  }

  /**
   * In every run: after a start or reconfiguration has completed as primary over `stdby`, writes stay disabled until
   * a check reports its standby caught up or is cancelled.
   */
  lemma PrimaryStaysReadOnly(s: State, before: seq<Event>, e: Event, stdby: string, after: seq<Event>)
    requires Initial(s) && !s.oneNodeWriteMode
    requires BecomesPrimary(Run(s, before), e, stdby)
    requires NothingOpens(Next(Run(s, before), e), after)
    ensures WatchedAndReadOnly(Next(Run(s, before), e), stdby)
    ensures WritesDisabled(Run(Next(Run(s, before), e), after))
  {
    var r := Run(s, before);
    InitialInv(s);
    RunKeeps(s, before);
    RunWillWatch(s, before);
    PrimaryIsWatched(r, e, stdby);
    NextKeeps(r, e);
    RunKeepsDisabled(Next(r, e), after);
  }

  // --- A check that succeeds opens the way

  /**
   * A reported catch-up leads, by the check's own next two steps, to a process that names exactly that standby, and
   * which is writable unless the shipped file or the tunables say otherwise; without a process the manager crashes.
   */
  lemma CatchUpNamesStandby(s: State, id: nat, poll: Poll, io: Io)
    requires Inv(s) && !s.crashed && ReportsCaughtUp(s, CheckPolls(id, poll)) && io.ok
    ensures ShowsCaughtUp(poll.reply)
    ensures var stdby := s.background[id].stdby;
      var s' := Run(s, [CheckPolls(id, poll), WritesConf(id, io), Signals(id)]);
      && (s.postgres.None? <==> s'.crashed)
      && (s.postgres.Some? ==>
            && s'.transitionFunc.None?
            && s'.postgres.Some? && NamesStandby(s'.postgres.value.conf, stdby)
            && (ReadOnly(s'.postgres.value.conf) <==> ReadOnly(io.shipped + s.additionalPgOptions)))
  {
    StopMeansCaughtUp(poll.reply);
    var stdby := s.background[id].stdby;
    RunThree(s, CheckPolls(id, poll), WritesConf(id, io), Signals(id));
    CheckEnables(s, id, poll, io);
    SignalLoads(Next(Next(s, CheckPolls(id, poll)), WritesConf(id, io)), id);
  }

  lemma SignalLoads(s: State, id: nat)
    requires !s.crashed && id in s.background && s.background[id].Signalling?
    ensures var s' := Next(s, Signals(id));
      && (s.postgres.None? <==> s'.crashed)
      && (s.postgres.Some? ==> s'.transitionFunc.None? && s'.postgres.Some? && s'.postgres.value.conf == s.disk.conf)
  {
  }

  lemma CheckEnables(s: State, id: nat, poll: Poll, io: Io)
    requires !s.crashed && ReportsCaughtUp(s, CheckPolls(id, poll)) && io.ok
    ensures var stdby := s.background[id].stdby;
      var s2 := Next(Next(s, CheckPolls(id, poll)), WritesConf(id, io));
      && s2.postgres == s.postgres && !s2.crashed
      && id in s2.background && s2.background[id] == Signalling(stdby)
      && NamesStandby(s2.disk.conf, stdby)
      && (ReadOnly(s2.disk.conf) <==> ReadOnly(io.shipped + s.additionalPgOptions))
  {
    var stdby := s.background[id].stdby;
    var s1 := Next(s, CheckPolls(id, poll));
    assert s1 == s.(background := s.background[id := EnablingWrites(stdby)]);
    var conf := UpdatedPgConf(io.shipped, s.additionalPgOptions, EnableWritesUpdates(stdby));
    assert ReadOnly(conf) <==> ReadOnly(io.shipped + s.additionalPgOptions);
  }

  lemma RunThree(s: State, e1: Event, e2: Event, e3: Event)
    ensures Run(s, [e1, e2, e3]) == Next(Next(Next(s, e1), e2), e3)
  {
    assert [e1, e2, e3][1..] == [e2, e3] && [e2, e3][1..] == [e3] && [e3][1..] == [];
    var s1 := Next(s, e1);
    var s2 := Next(s1, e2);
    assert Run(s2, [e3]) == Run(Next(s2, e3), []);
    assert Run(s1, [e2, e3]) == Run(s2, [e3]);
  }

  // --- A cancelled check always emits 'done'

  predicate Awaiting(s: State, id: nat) {
    s.foreground.Pipeline? && s.foreground.code.Step? && s.foreground.code.instr == AwaitDone(id)
  }

  /** The steps a check has left once cancelled. */
  function StepsLeft(b: Background): nat {
    match b
    case NotStarted(_) => 4
    case Checking(_, _) => 3
    case EnablingWrites(_) => 2
    case Signalling(_) => 1
  }

  /** The event that brings the cancelled check nearer to its end, whatever its outcome. */
  predicate Drives(s: State, id: nat, e: Event) {
    id in s.background &&
    match s.background[id]
    case NotStarted(_) => e.CheckStarts? && e.id == id
    case Checking(_, _) => e.Advance?
    case EnablingWrites(_) => e.WritesConf? && e.id == id
    case Signalling(_) => e.Signals? && e.id == id
  }

  lemma AwaitedIsAlive(s: State, id: nat)
    requires Inv(s) && Awaiting(s, id)
    ensures id in s.background
  {
  }

  /** The wait is over, or the check is nearer to its end if it was driven. */
  predicate Nearer(s: State, id: nat, e: Event) {
    var s' := Next(s, e);
    s'.crashed || !Awaiting(s', id) ||
    (id in s.background && id in s'.background &&
     StepsLeft(s'.background[id]) <= StepsLeft(s.background[id]) - (if Drives(s, id, e) then 1 else 0))
  }

  lemma OthersWait(s: State, id: nat, e: Event)
    requires Inv(s) && Awaiting(s, id) && !s.crashed
    requires e.Start? || e.Stop? || e.Reconfigure? || e.PostgresExits? || e.StrayStop? || e.CheckStarts?
    ensures Nearer(s, id, e)
  {
    AwaitedIsAlive(s, id);
    assert s.transitioning;
  }

  lemma AdvanceCancels(s: State, id: nat, io: Io)
    requires Inv(s) && Awaiting(s, id) && !s.crashed
    ensures Nearer(s, id, Advance(io))
  {
    AwaitedIsAlive(s, id);
  }

  /** When the awaited check is done, the pipeline goes on. */
  lemma DoneEndsWait(s: State, id: nat, i: nat, ok: bool)
    requires Inv(s) && !s.crashed && i in s.background
    ensures !Awaiting(BackgroundDone(s, i, ok), id)
  {
    BackgroundDoneKeeps(s, i, ok);
  }

  lemma PollComesNearer(s: State, id: nat, i: nat, poll: Poll)
    requires Inv(s) && Awaiting(s, id) && !s.crashed
    ensures Nearer(s, id, CheckPolls(i, poll))
  {
    AwaitedIsAlive(s, id);
    if i in s.background {
      DoneEndsWait(s, id, i, false);
    }
  }

  lemma WriteComesNearer(s: State, id: nat, i: nat, io: Io)
    requires Inv(s) && Awaiting(s, id) && !s.crashed
    ensures Nearer(s, id, WritesConf(i, io))
  {
    AwaitedIsAlive(s, id);
    if i in s.background && s.background[i].EnablingWrites? && !io.ok {
      var s' := s.(disk := s.disk.(conf := io.left.conf));
      ReadyUnlessQuiet(s, s');
      DoneEndsWait(s', id, i, false);
    }
  }

  lemma SignalComesNearer(s: State, id: nat, i: nat)
    requires Inv(s) && Awaiting(s, id) && !s.crashed
    ensures Nearer(s, id, Signals(i))
  {
    AwaitedIsAlive(s, id);
    if i in s.background && s.background[i].Signalling? && s.postgres.Some? {
      HupKeeps(s);
      ReadyUnlessQuiet(s, Hup(s));
      DoneEndsWait(Hup(s), id, i, true);
    }
  }

  lemma AwaitedComesNearer(s: State, id: nat, e: Event)
    requires Inv(s) && Awaiting(s, id) && !s.crashed
    ensures id in s.background && Nearer(s, id, e)
  {
    AwaitedIsAlive(s, id);
    match e
    case Advance(io) => AdvanceCancels(s, id, io);
    case CheckPolls(i, poll) => PollComesNearer(s, id, i, poll);
    case WritesConf(i, io) => WriteComesNearer(s, id, i, io);
    case Signals(i) => SignalComesNearer(s, id, i);
    case _ => OthersWait(s, id, e);
  }

  function DrivingSteps(s: State, id: nat, events: seq<Event>): nat
    decreases |events|
  {
    if events == [] then 0
    else (if Drives(s, id, events[0]) then 1 else 0) + DrivingSteps(Next(s, events[0]), id, events[1..])
  }

  predicate AwaitingThroughout(s: State, id: nat, events: seq<Event>)
    decreases |events|
  {
    !s.crashed && Awaiting(s, id) && (events == [] || AwaitingThroughout(Next(s, events[0]), id, events[1..]))
  }

  /** A canceller outlasts at most three steps of the check it waits for: the fourth ends the wait (or the manager). */
  lemma {:induction false} CancelEnds(s: State, id: nat, events: seq<Event>)
    requires Inv(s) && AwaitingThroughout(s, id, events)
    ensures id in s.background
    ensures DrivingSteps(s, id, events) < StepsLeft(s.background[id]) <= 4
    decreases |events|
  {
    AwaitedIsAlive(s, id);
    if events != [] {
      AwaitedComesNearer(s, id, events[0]);
      NextKeeps(s, events[0]);
      CancelEnds(Next(s, events[0]), id, events[1..]);
    }
  }

  // --- The check in the background is the one that is polled for

  function Polling(id: nat, polls: seq<Poll>): seq<Event> {
    if polls == [] then [] else [CheckPolls(id, polls[0])] + Polling(id, polls[1..])
  }

  /** As long as the replies are not decisive, nothing happens but that the check goes on as `checkRepl` does. */
  lemma {:induction false} CheckFollowsReplies(s: State, id: nat, polls: seq<Poll>)
    requires !s.crashed && id in s.background && s.background[id].Checking?
    requires Follow(s.background[id].check, s.replicationTimeout, polls).Continue?
    ensures var check := Follow(s.background[id].check, s.replicationTimeout, polls).check;
      Run(s, Polling(id, polls)) == s.(background := s.background[id := Checking(s.background[id].stdby, check)])
    decreases |polls|
  {
    if polls == [] {
      assert s.background[id := Checking(s.background[id].stdby, s.background[id].check)] == s.background;
    } else {
      var s1 := Next(s, CheckPolls(id, polls[0]));
      var check := Follow(s.background[id].check, s.replicationTimeout, polls).check;
      CheckFollowsReplies(s1, id, polls[1..]);
      assert Polling(id, polls)[1..] == Polling(id, polls[1..]);
      assert s1.background[id := Checking(s.background[id].stdby, check)]
          == s.background[id := Checking(s.background[id].stdby, check)];
    }
  }

  /** A check that times out is done, without any change to Postgres or the files. */
  lemma TimeOutEndsCheck(s: State, id: nat, p: Poll)
    requires !s.crashed && id in s.background && s.background[id].Checking?
    requires CheckStep(s.background[id].check, s.replicationTimeout, p) == TimedOut
    ensures var s' := Next(s, CheckPolls(id, p));
      && s'.background == s.background - {id} && s'.transitionFunc.None?
      && s'.postgres == s.postgres && s'.disk == s.disk && !s'.crashed
  {
  }
}
