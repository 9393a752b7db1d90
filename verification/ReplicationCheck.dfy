/** `_checkRepl` and `_checkReplStatus` of lib/postgresMgr.js: polling until a standby has caught up. */
module ReplicationCheck {
  import opened Wrappers

  type Word = x: nat | x < 0x1_0000_0000

  /** A log sequence number: two 32-bit words, the high one first. */
  datatype Lsn = Lsn(hi: Word, lo: Word)

  function XlogCompare(a: Lsn, b: Lsn): int {
    if a.hi != b.hi then (if a.hi < b.hi then -1 else 1)
    else if a.lo != b.lo then (if a.lo < b.lo then -1 else 1)
    else 0
  }

  /** The byte position an LSN stands for. */
  function Position(l: Lsn): nat {
    l.hi * 0x1_0000_0000 + l.lo
  }

  lemma XlogComparePosition(a: Lsn, b: Lsn)
    ensures XlogCompare(a, b) > 0 <==> Position(a) > Position(b)
    ensures XlogCompare(a, b) == 0 <==> a == b
  {
  }

  datatype Location = Valid(lsn: Lsn) | Malformed(text: string)

  /** What a query of pg_stat_replication came back with. An empty or null column is None. */
  datatype Reply =
    | QueryError
    | NoRow
    | Row(syncState: Option<string>, sent: Option<Location>, flush: Option<Location>)

  datatype Status = StatusError | Status(stop: bool, flushed: Lsn)

  function CheckReplStatus(reply: Reply): Status {
    match reply
    case QueryError => StatusError
    case NoRow => StatusError
    case Row(syncState, sent, flush) =>
      if syncState.None? || sent.None? || flush.None? then StatusError
      else if sent.value.Malformed? || flush.value.Malformed? then StatusError
      else Status(XlogCompare(sent.value.lsn, flush.value.lsn) == 0, flush.value.lsn)
  }

  /** The reply shows a standby that has flushed all that was sent to it. */
  predicate ShowsCaughtUp(reply: Reply) {
    && reply.Row?
    && reply.syncState.Some?
    && reply.sent.Some? && reply.sent.value.Valid?
    && reply.flush == reply.sent
  }

  lemma StopMeansCaughtUp(reply: Reply)
    ensures CheckReplStatus(reply).Status? && CheckReplStatus(reply).stop <==> ShowsCaughtUp(reply)
  {
    if reply.Row? && reply.sent.Some? && reply.flush.Some? && reply.sent.value.Valid? && reply.flush.value.Valid? {
      XlogComparePosition(reply.sent.value.lsn, reply.flush.value.lsn);
    }
  }

  /** A reply, with the clock readings that its handler takes: for resetting the start, then for the elapsed time. */
  datatype Poll = Poll(reply: Reply, first: int, second: int)

  /** The variables of one running check: the highest flush location seen, and the time progress is counted from. */
  datatype Check = Check(replayLoc: Option<Lsn>, startTime: int)

  datatype Progress = Continue(check: Check) | CaughtUp | TimedOut

  predicate Advances(c: Check, flushed: Lsn) {
    c.replayLoc.None? || XlogCompare(flushed, c.replayLoc.value) > 0
  }

  /** The handler of one reply. */
  function CheckStep(c: Check, timeout: int, p: Poll): Progress {
    match CheckReplStatus(p.reply)
    case StatusError => Continue(c.(startTime := p.first))
    case Status(stop, flushed) =>
      var c' := if Advances(c, flushed) then Check(Some(flushed), p.first) else c;
      if stop then CaughtUp
      else if p.second - c'.startTime > timeout then TimedOut
      else Continue(c')
  }

  /** A reply shows the standby caught up exactly if the check reports it, at once and whatever came before. */
  lemma CaughtUpIsExact(c: Check, timeout: int, p: Poll)
    ensures CheckStep(c, timeout, p) == CaughtUp <==> ShowsCaughtUp(p.reply)
  {
    StopMeansCaughtUp(p.reply);
  }

  /** It gives up exactly on a status not caught up, when the timeout has passed since the last progress. */
  lemma TimedOutIsExact(c: Check, timeout: int, p: Poll)
    ensures CheckStep(c, timeout, p) == TimedOut <==>
      && CheckReplStatus(p.reply).Status? && !ShowsCaughtUp(p.reply)
      && p.second - (if NoProgress(c.replayLoc, p) then c.startTime else p.first) > timeout
  {
    StopMeansCaughtUp(p.reply);
    var status := CheckReplStatus(p.reply);
    if status.Status? && c.replayLoc.Some? {
      XlogComparePosition(status.flushed, c.replayLoc.value);
    }
  }

  /** The outcome after a series of replies. */
  function Follow(c: Check, timeout: int, polls: seq<Poll>): Progress
    decreases |polls|
  {
    if polls == [] then Continue(c)
    else
      var p := CheckStep(c, timeout, polls[0]);
      if p.Continue? then Follow(p.check, timeout, polls[1..]) else p
  }

  lemma {:induction false} FollowSnoc(c: Check, timeout: int, polls: seq<Poll>, p: Poll)
    ensures Follow(c, timeout, polls + [p])
         == match Follow(c, timeout, polls)
            case Continue(c') => CheckStep(c', timeout, p)
            case done => done
    decreases |polls|
  {
    if polls == [] {
      assert polls + [p] == [p];
      assert [p][1..] == [];
    } else {
      assert (polls + [p])[1..] == polls[1..] + [p];
      var q := CheckStep(c, timeout, polls[0]);
      if q.Continue? {
        FollowSnoc(q.check, timeout, polls[1..], p);
      }
    }
  }

  /** The polling loop. `used` replies were consumed. */
  method CheckRepl(polls: seq<Poll>, started: int, timeout: int) returns (r: Progress, used: nat)
    ensures used <= |polls|
    ensures r == Follow(Check(None, started), timeout, polls[..used])
    ensures r.Continue? ==> used == |polls|
    ensures !r.Continue? ==> used > 0 && Follow(Check(None, started), timeout, polls[..used - 1]).Continue?
  {
    var replayLoc: Option<Lsn>, startTime := None, started;
    used := 0;
    while used < |polls|
      invariant used <= |polls|
      invariant Follow(Check(None, started), timeout, polls[..used]) == Continue(Check(replayLoc, startTime))
    {
      var p := polls[used];
      assert polls[..used + 1] == polls[..used] + [p];
      FollowSnoc(Check(None, started), timeout, polls[..used], p);
      used := used + 1;
      assert polls[..used - 1] == polls[..used][..used - 1];
      match CheckReplStatus(p.reply) {
        case StatusError =>
          startTime := p.first;
        case Status(stop, flushed) =>
          if replayLoc.None? || XlogCompare(flushed, replayLoc.value) > 0 {
            startTime := p.first;
            replayLoc := Some(flushed);
          }
          if stop {
            return CaughtUp, used;
          } else if p.second - startTime > timeout {
            return TimedOut, used;
          }
      }
    }
    r := Continue(Check(replayLoc, startTime));
    assert polls[..used] == polls;
  }

  // --- Soundness

  /** The check reports success on the first reply that shows the standby caught up. */
  lemma CaughtUpIsReported(c: Check, timeout: int, polls: seq<Poll>, n: nat)
    requires n < |polls| && Follow(c, timeout, polls[..n]).Continue? && ShowsCaughtUp(polls[n].reply)
    ensures Follow(c, timeout, polls[..n + 1]) == CaughtUp
  {
    FollowSnoc(c, timeout, polls[..n], polls[n]);
    assert polls[..n + 1] == polls[..n] + [polls[n]];
    CaughtUpIsExact(Follow(c, timeout, polls[..n]).check, timeout, polls[n]);
  }

  /** A check only reports success on a reply that shows the standby caught up. */
  lemma {:induction false} CaughtUpIsSound(c: Check, timeout: int, polls: seq<Poll>)
    requires Follow(c, timeout, polls) == CaughtUp
    ensures exists n :: 0 <= n < |polls| && ShowsCaughtUp(polls[n].reply) && Follow(c, timeout, polls[..n]).Continue?
    decreases |polls|
  {
    var p := CheckStep(c, timeout, polls[0]);
    StopMeansCaughtUp(polls[0].reply);
    if p.Continue? {
      CaughtUpIsSound(p.check, timeout, polls[1..]);
      var n :| 0 <= n < |polls[1..]| && ShowsCaughtUp(polls[1..][n].reply) && Follow(p.check, timeout, polls[1..][..n]).Continue?;
      assert polls[..n + 1][1..] == polls[1..][..n];
      assert ShowsCaughtUp(polls[n + 1].reply) && Follow(c, timeout, polls[..n + 1]).Continue?;
    } else {
      assert polls[..0] == [];
      assert ShowsCaughtUp(polls[0].reply) && Follow(c, timeout, polls[..0]).Continue?;
    }
  }

  /** The running maximum of the flush locations reported, beginning from `floor`. */
  function MaxFlush(floor: Option<Lsn>, polls: seq<Poll>): Option<Lsn>
    decreases |polls|
  {
    if polls == [] then floor
    else
      match CheckReplStatus(polls[0].reply)
      case StatusError => MaxFlush(floor, polls[1..])
      case Status(_, flushed) =>
        MaxFlush(if floor.None? || Position(flushed) > Position(floor.value) then Some(flushed) else floor, polls[1..])
  }

  /** The reply is a proper status, not caught up, and no further than the maximum so far. */
  predicate NoProgress(floor: Option<Lsn>, p: Poll) {
    && floor.Some?
    && CheckReplStatus(p.reply).Status?
    && !ShowsCaughtUp(p.reply)
    && Position(CheckReplStatus(p.reply).flushed) <= Position(floor.value)
  }

  predicate Idle(floor: Option<Lsn>, polls: seq<Poll>, i: nat)
    requires i < |polls|
  {
    NoProgress(MaxFlush(floor, polls[..i]), polls[i])
  }

  /** Polls k to n all brought no progress, and at poll n more than the timeout had passed since poll k - 1 (or the start). */
  predicate Stalled(c: Check, timeout: int, polls: seq<Poll>, k: nat, n: nat) {
    && k <= n + 1 && n < |polls|
    && polls[n].second - (if k == 0 then c.startTime else polls[k - 1].first) > timeout
    && forall i {:trigger Idle(c.replayLoc, polls, i)} :: k <= i <= n ==> Idle(c.replayLoc, polls, i)
  }

  /** A check only gives up after a whole timeout without a query error and without a flush location above the maximum seen. */
  lemma {:induction false} TimedOutIsSound(c: Check, timeout: int, polls: seq<Poll>) returns (k: nat, n: nat)
    requires Follow(c, timeout, polls) == TimedOut
    ensures Stalled(c, timeout, polls, k, n)
    ensures Follow(c, timeout, polls[..n]).Continue?
    decreases |polls|
  {
    var p := CheckStep(c, timeout, polls[0]);
    StopMeansCaughtUp(polls[0].reply);
    assert polls[..0] == [];
    var status := CheckReplStatus(polls[0].reply);
    if status.Status? && c.replayLoc.Some? {
      XlogComparePosition(status.flushed, c.replayLoc.value);
    }
    var reset := status.StatusError? || Advances(c, status.flushed);
    if !p.Continue? {
      k, n := if reset then 1 else 0, 0;
      assert k == 0 ==> Idle(c.replayLoc, polls, 0);
    } else {
      var rest := polls[1..];
      var k', n' := TimedOutIsSound(p.check, timeout, rest);
      k, n := if k' == 0 && !reset then 0 else k' + 1, n' + 1;
      forall i {:trigger Idle(c.replayLoc, polls, i)} | k <= i <= n ensures Idle(c.replayLoc, polls, i) {
        if i > 0 {
          assert Idle(p.check.replayLoc, rest, i - 1);
          assert polls[..i][1..] == rest[..i - 1];
        }
      }
      assert polls[..n][1..] == rest[..n'];
    }
  }

  // --- Termination

  /** Every reply is a proper status whose flush location is at most `bound`, and the clock advances between polls. */
  predicate Steady(polls: seq<Poll>, now: int, bound: nat) {
    polls == [] ||
    var p := polls[0];
    && CheckReplStatus(p.reply).Status? && Position(CheckReplStatus(p.reply).flushed) <= bound
    && now < p.first <= p.second
    && Steady(polls[1..], p.second, bound)
  }

  /** How much log the standby may still report, counting the first report. */
  function Ahead(c: Check, bound: nat): int {
    if c.replayLoc.None? then bound + 1 else bound - Position(c.replayLoc.value)
  }

  /** The pair (log ahead, time left to wait), in lexicographic order, as one number. */
  function Budget(ahead: int, timeout: nat, elapsed: int): int {
    ahead * (timeout + 2) + (timeout + 1 - elapsed)
  }

  lemma BudgetOrder(ahead: int, timeout: nat, elapsed: int, ahead': int, elapsed': int)
    requires elapsed <= timeout && 0 <= elapsed'
    requires ahead' < ahead || (ahead' == ahead && elapsed < elapsed')
    ensures Budget(ahead', timeout, elapsed') < Budget(ahead, timeout, elapsed)
  {
    if ahead' < ahead {
      assert ahead' * (timeout + 2) <= (ahead - 1) * (timeout + 2);
    }
  }

  lemma BudgetPositive(ahead: nat, timeout: nat, elapsed: int)
    requires elapsed <= timeout
    ensures Budget(ahead, timeout, elapsed) > 0
  {
    assert ahead * (timeout + 2) >= 0;
  }

  lemma StepUsesBudget(c: Check, timeout: nat, now: int, bound: nat, p: Poll)
    requires CheckReplStatus(p.reply).Status?
    requires now < p.first <= p.second && 0 <= now - c.startTime <= timeout
    requires CheckStep(c, timeout, p).Continue?
    requires Position(CheckReplStatus(p.reply).flushed) <= bound
    ensures var c' := CheckStep(c, timeout, p).check;
      && 0 <= p.second - c'.startTime <= timeout
      && Budget(Ahead(c', bound), timeout, p.second - c'.startTime) < Budget(Ahead(c, bound), timeout, now - c.startTime)
  {
    var c' := CheckStep(c, timeout, p).check;
    var flushed := CheckReplStatus(p.reply).flushed;
    if c.replayLoc.Some? {
      XlogComparePosition(flushed, c.replayLoc.value);
    }
    BudgetOrder(Ahead(c, bound), timeout, now - c.startTime, Ahead(c', bound), p.second - c'.startTime);
  }

  /** Without query errors, with bounded locations and a running clock, the check ends within its budget of polls. */
  lemma {:induction false} CheckTerminates(c: Check, timeout: nat, polls: seq<Poll>, now: int, bound: nat)
    requires Steady(polls, now, bound)
    requires 0 <= now - c.startTime <= timeout
    requires c.replayLoc.Some? ==> Position(c.replayLoc.value) <= bound
    requires |polls| >= Budget(Ahead(c, bound), timeout, now - c.startTime)
    ensures !Follow(c, timeout, polls).Continue?
    decreases |polls|
  {
    BudgetPositive(Ahead(c, bound), timeout, now - c.startTime);
    var p := CheckStep(c, timeout, polls[0]);
    if p.Continue? {
      StepUsesBudget(c, timeout, now, bound, polls[0]);
      CheckTerminates(p.check, timeout, polls[1..], polls[0].second, bound);
    }
  }
}
