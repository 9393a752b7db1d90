/**
 * `watch` of lib/zookeeperMgr.js: following one znode through ZooKeeper's one-shot watches.
 *
 * The server handles one session's requests in order and answers in order; an event for a watch that fired is put in
 * the same stream, before any later answer. A read that sets a watch does so at the moment it reads.
 */
module WatchLoop {
  import opened Wrappers

  /** What was read: the content that the `stamp`-th change left, or that there is no such node. */
  datatype Found = Missing | Content(stamp: nat)

  datatype Request =
    | GetAndWatch      // registerWatch: the get function with watchFired
    | Get              // the get function without a watch, after exists found the node
    | ExistsAndWatch

  datatype Message =
    | Fired
    | Got(found: Found)
    | GetFailed        // any error other than NO_NODE
    | Existence(isThere: bool)
    | ExistsFailed

  datatype State = State(
    // the server: the znode, how often it has changed, and how many one-shot watches are set on it
    node: bool,
    changes: nat,
    armed: nat,
    // in transit
    outbox: seq<Request>,
    inbox: seq<Message>,
    // the client: pending retry timers, whether the initial callback was made, and what was last delivered
    retries: nat,
    called: bool,
    delivered: Option<nat>)

  /** The first `registerWatch`. */
  function Start(node: bool, changes: nat): State {
    State(node, changes, 0, [GetAndWatch], [], 0, false, None)
  }

  datatype Event =
    | Change(node: bool)     // another client creates, sets or deletes the node
    | Serve(fails: bool)     // the server answers the oldest request
    | Receive                // the client handles the oldest message
    | Retry                  // a retry timer runs out
    | NewSession             // the session expires, or another step of its setup fails

  function Fireds(n: nat): seq<Message> {
    seq(n, _ => Fired)
  }

  function Current(s: State): Found {
    if s.node then Content(s.changes) else Missing
  }

  function Answer(s: State, r: Request, fails: bool): State {
    match r
    case GetAndWatch =>
      if fails then s.(inbox := s.inbox + [GetFailed])
      else s.(armed := if s.node then s.armed + 1 else s.armed, inbox := s.inbox + [Got(Current(s))])
    case Get =>
      s.(inbox := s.inbox + [if fails then GetFailed else Got(Current(s))])
    case ExistsAndWatch =>
      if fails then s.(inbox := s.inbox + [ExistsFailed])
      else s.(armed := s.armed + 1, inbox := s.inbox + [Existence(s.node)])
  }

  /** The client is set up anew, with a new session: nothing of the old one arrives any more. */
  function Afresh(s: State): State {
    s.(armed := 0, outbox := [GetAndWatch], inbox := [], retries := 0, called := false)
  }

  /**
   * `onGet`, `watchFired` and the callback of `exists`. The initial callback also hands its content over; if it is made
   * with an error, the client is set up anew.
   */
  function Handle(s: State, m: Message): State {
    match m
    case Fired => s.(outbox := s.outbox + [GetAndWatch])
    case Got(Missing) => s.(outbox := s.outbox + [ExistsAndWatch])
    case Got(Content(stamp)) => s.(called := true, delivered := Some(stamp))
    case GetFailed => if s.called then s.(retries := s.retries + 1) else Afresh(s)
    case Existence(isThere) =>
      s.(called := true, outbox := if isThere then s.outbox + [Get] else s.outbox)
    case ExistsFailed => if s.called then s else Afresh(s)
  }

  function Next(s: State, e: Event): State {
    match e
    case Change(node) =>
      if !s.node && !node then s
      else s.(node := node, changes := s.changes + 1, armed := 0, inbox := s.inbox + Fireds(s.armed))
    case Serve(fails) =>
      if s.outbox == [] then s else Answer(s.(outbox := s.outbox[1..]), s.outbox[0], fails)
    case Receive =>
      if s.inbox == [] then s else Handle(s.(inbox := s.inbox[1..]), s.inbox[0])
    case Retry =>
      if s.retries == 0 then s else s.(retries := s.retries - 1, outbox := s.outbox + [GetAndWatch])
    case NewSession => Afresh(s)
  }

  function Run(s: State, events: seq<Event>): State
    decreases |events|
  {
    if events == [] then s else Run(Next(s, events[0]), events[1..])
  }

  /** `exists` fails after the initial callback: that sets no watch, and no one is told. */
  predicate ExistsFails(s: State, e: Event) {
    e.Serve? && e.fails && s.outbox != [] && s.outbox[0].ExistsAndWatch? && s.called
  }

  /** After the initial callback `exists` never fails. All other reads may fail at any time, and sessions may expire. */
  predicate Healthy(s: State, events: seq<Event>)
    decreases |events|
  {
    events == [] || (!ExistsFails(s, events[0]) && Healthy(Next(s, events[0]), events[1..]))
  }

  // --- The invariant

  /** A message that makes the client set a watch again, at once or after a timer. */
  predicate Rearms(s: State, m: Message) {
    m.Fired? || m.GetFailed? || m == Got(Missing) || (m.ExistsFailed? && !s.called)
  }

  /** The loop is not deaf: a watch is set, or something in transit or on a timer leads to setting one. */
  predicate Watchful(s: State) {
    || s.armed > 0
    || s.retries > 0
    || (exists i :: 0 <= i < |s.inbox| && Rearms(s, s.inbox[i]))
    || (exists i :: 0 <= i < |s.outbox| && s.outbox[i] != Get)
  }

  /** A message that brings the present content, or makes the client ask for it. */
  predicate Refreshes(s: State, m: Message) {
    Rearms(s, m) || m == Existence(true) || m == Got(Content(s.changes))
  }

  /** The present content was delivered, or something in transit or on a timer leads to its delivery. */
  predicate Fresh(s: State) {
    || !s.node
    || s.delivered == Some(s.changes)
    || s.retries > 0
    || s.outbox != []
    || exists i :: 0 <= i < |s.inbox| && Refreshes(s, s.inbox[i])
  }

  predicate Brings(m: Message) {
    m.Got? && m.found.Content?
  }

  /** Contents arrive in the order in which the server held them. */
  predicate Ordered(s: State) {
    && (s.delivered.Some? ==> s.delivered.value <= s.changes)
    && (forall i :: 0 <= i < |s.inbox| && Brings(s.inbox[i]) ==>
          && s.inbox[i].found.stamp <= s.changes
          && (s.delivered.Some? ==> s.delivered.value <= s.inbox[i].found.stamp))
    && (forall i, j :: 0 <= i < j < |s.inbox| && Brings(s.inbox[i]) && Brings(s.inbox[j]) ==>
          s.inbox[i].found.stamp <= s.inbox[j].found.stamp)
  }

  /** Until the initial callback there is just one request, or its reply followed by events. */
  predicate Early(s: State) {
    !s.called ==>
      && s.retries == 0
      && if s.inbox == [] then |s.outbox| == 1 && s.outbox[0] != Get && s.armed == 0
         else
           && s.outbox == [] && s.inbox[0] != Fired
           && (forall i :: 1 <= i < |s.inbox| ==> s.inbox[i] == Fired)
           && (s.inbox[0] in {Got(Missing), GetFailed, ExistsFailed} ==> |s.inbox| == 1 && s.armed == 0)
  }

  predicate Inv(s: State) {
    Watchful(s) && Fresh(s) && Ordered(s) && Early(s)
  }

  lemma ChangeKeepsWatchful(s: State, node: bool)
    requires Watchful(s)
    ensures Watchful(Next(s, Change(node)))
  {
    var s' := Next(s, Change(node));
    if s' != s {
      assert s'.inbox[..|s.inbox|] == s.inbox;
      if s.armed > 0 {
        assert Rearms(s', s'.inbox[|s.inbox|]);
      } else if i :| 0 <= i < |s.inbox| && Rearms(s, s.inbox[i]) {
        assert Rearms(s', s'.inbox[i]);
      }
    }
  }

  lemma ChangeKeepsEarly(s: State, node: bool)
    requires Early(s)
    ensures Early(Next(s, Change(node)))
  {
    var s' := Next(s, Change(node));
    assert s' != s ==> s'.inbox == s.inbox + Fireds(s.armed);
  }

  lemma ChangeKeepsOrdered(s: State, node: bool)
    requires Ordered(s)
    ensures Ordered(Next(s, Change(node)))
  {
    var s' := Next(s, Change(node));
    if s' != s {
      assert s'.inbox == s.inbox + Fireds(s.armed);
      assert forall i :: 0 <= i < |s'.inbox| && Brings(s'.inbox[i]) ==> i < |s.inbox| && s'.inbox[i] == s.inbox[i];
    }
  }

  lemma ChangeKeepsFresh(s: State, node: bool)
    requires Watchful(s) && Fresh(s) && Ordered(s)
    ensures Fresh(Next(s, Change(node)))
  {
    var s' := Next(s, Change(node));
    if s' != s {
      assert s'.inbox[..|s.inbox|] == s.inbox;
      if s.armed > 0 {
        assert Rearms(s', s'.inbox[|s.inbox|]);
      } else if i :| 0 <= i < |s.inbox| && Rearms(s, s.inbox[i]) {
        assert Rearms(s', s'.inbox[i]);
      }
    }
  }

  lemma ChangeKeeps(s: State, node: bool)
    requires Inv(s)
    ensures Inv(Next(s, Change(node)))
  {
    ChangeKeepsWatchful(s, node);
    ChangeKeepsFresh(s, node);
    ChangeKeepsOrdered(s, node);
    ChangeKeepsEarly(s, node);
  }

  lemma ServeKeepsWatchful(s: State, fails: bool)
    requires Watchful(s) && s.outbox != [] && !ExistsFails(s, Serve(fails))
    ensures Watchful(Next(s, Serve(fails)))
  {
    var s' := Next(s, Serve(fails));
    var n := |s.inbox|;
    assert s'.inbox[..n] == s.inbox && |s'.inbox| == n + 1;
    if s.outbox[0] == Get {
      if i :| 0 <= i < |s.outbox| && s.outbox[i] != Get {
        assert s'.outbox[i - 1] != Get;
      } else if i :| 0 <= i < n && Rearms(s, s.inbox[i]) {
        assert Rearms(s', s'.inbox[i]);
      }
    } else {
      assert s'.armed > 0 || Rearms(s', s'.inbox[n]);
    }
  }

  lemma AppendedInOrder(s: State, s': State, m: Message)
    requires Ordered(s) && s'.inbox == s.inbox + [m] && s'.changes == s.changes && s'.delivered == s.delivered
    requires Brings(m) ==> m.found.stamp == s.changes
    ensures Ordered(s')
  {
    assert forall i :: 0 <= i < |s.inbox| ==> s'.inbox[i] == s.inbox[i];
  }

  lemma ServeKeepsOrdered(s: State, fails: bool)
    requires Ordered(s) && s.outbox != []
    ensures Ordered(Next(s, Serve(fails)))
  {
    var s' := Next(s, Serve(fails));
    AppendedInOrder(s, s', s'.inbox[|s.inbox|]);
  }

  lemma ServeKeepsEarly(s: State, fails: bool)
    requires Early(s) && s.outbox != []
    ensures Early(Next(s, Serve(fails)))
  {
  }

  lemma ServeKeeps(s: State, fails: bool)
    requires Inv(s) && s.outbox != [] && !ExistsFails(s, Serve(fails))
    ensures Inv(Next(s, Serve(fails)))
  {
    var s' := Next(s, Serve(fails));
    ServeKeepsWatchful(s, fails);
    ServeKeepsOrdered(s, fails);
    ServeKeepsEarly(s, fails);
    assert s.node ==> Refreshes(s', s'.inbox[|s.inbox|]);
  }

  lemma ReceiveKeepsWatchful(s: State)
    requires Watchful(s) && Early(s) && s.inbox != []
    ensures Watchful(Next(s, Receive))
  {
    var s' := Next(s, Receive);
    if Rearms(s, s.inbox[0]) {
      assert s'.retries > 0 || s'.outbox[|s'.outbox| - 1] != Get;
    } else if i :| 0 <= i < |s.inbox| && Rearms(s, s.inbox[i]) {
      assert Rearms(s', s'.inbox[i - 1]);
    } else if i :| 0 <= i < |s.outbox| && s.outbox[i] != Get {
      assert s'.outbox[i] != Get;
    }
  }

  lemma ReceiveKeepsFresh(s: State)
    requires Fresh(s) && Ordered(s) && Early(s) && s.inbox != []
    ensures Fresh(Next(s, Receive))
  {
    var s' := Next(s, Receive);
    if i :| 0 < i < |s.inbox| && Refreshes(s, s.inbox[i]) {
      assert s'.outbox != [] || Refreshes(s', s'.inbox[i - 1]);
    }
  }

  lemma ReceiveKeepsOrdered(s: State)
    requires Ordered(s) && s.inbox != []
    ensures Ordered(Next(s, Receive))
  {
    var s' := Next(s, Receive);
    assert s'.inbox == [] || forall i :: 0 <= i < |s'.inbox| ==> s'.inbox[i] == s.inbox[i + 1];
  }

  lemma ReceiveKeeps(s: State)
    requires Inv(s) && s.inbox != []
    ensures Inv(Next(s, Receive))
  {
    ReceiveKeepsWatchful(s);
    ReceiveKeepsFresh(s);
    ReceiveKeepsOrdered(s);
  }

  lemma NextKeeps(s: State, e: Event)
    requires Inv(s) && !ExistsFails(s, e)
    ensures Inv(Next(s, e))
  {
    match e
    case Change(node) => ChangeKeeps(s, node);
    case Serve(fails) =>
      if s.outbox != [] {
        ServeKeeps(s, fails);
      }
    case Receive =>
      if s.inbox != [] {
        ReceiveKeeps(s);
      }
    case Retry =>
      if s.retries > 0 {
        assert Next(s, e).outbox[|s.outbox|] != Get;
      }
    case NewSession => assert Next(s, e).outbox[0] != Get;
  }

  lemma {:induction false} RunKeeps(s: State, events: seq<Event>)
    requires Inv(s) && Healthy(s, events)
    ensures Inv(Run(s, events))
    decreases |events|
  {
    if events != [] {
      NextKeeps(s, events[0]);
      RunKeeps(Next(s, events[0]), events[1..]);
    }
  }

  lemma StartInv(node: bool, changes: nat)
    ensures Inv(Start(node, changes))
  {
    assert Start(node, changes).outbox[0] != Get;
  }

  // --- What holds in every run

  /** Nothing is in transit and no timer is running. */
  predicate Quiescent(s: State) {
    s.outbox == [] && s.inbox == [] && s.retries == 0
  }

  /** The loop never goes deaf, whatever changes, failing reads, delays and lost sessions there are. */
  lemma NeverDeaf(node: bool, changes: nat, events: seq<Event>)
    requires Healthy(Start(node, changes), events)
    ensures Watchful(Run(Start(node, changes), events))
  {
    StartInv(node, changes);
    RunKeeps(Start(node, changes), events);
  }

  /** Once everything has settled, a watch is set, and what was delivered last is what the node holds, if it exists. */
  lemma SettlesOnTheTruth(node: bool, changes: nat, events: seq<Event>)
    requires Healthy(Start(node, changes), events)
    requires Quiescent(Run(Start(node, changes), events))
    ensures var s := Run(Start(node, changes), events);
      s.armed > 0 && (s.node ==> s.delivered == Some(s.changes))
  {
    StartInv(node, changes);
    RunKeeps(Start(node, changes), events);
  }

  // --- How long it takes to settle

  /** The steps that a request leads to, its own included, while nothing changes and nothing fails. */
  function RequestWork(node: bool, r: Request): nat {
    match r
    case GetAndWatch => if node then 2 else 4
    case Get => if node then 2 else 4
    case ExistsAndWatch => if node then 4 else 2
  }

  function MessageWork(node: bool, m: Message): nat {
    match m
    case Fired => if node then 3 else 5
    case Got(Missing) => if node then 5 else 3
    case Got(Content(_)) => 1
    case GetFailed => if node then 4 else 6
    case Existence(isThere) => if !isThere then 1 else if node then 3 else 5
    case ExistsFailed => if node then 3 else 5
  }

  function AllRequests(node: bool, outbox: seq<Request>): nat {
    if outbox == [] then 0 else AllRequests(node, outbox[..|outbox| - 1]) + RequestWork(node, outbox[|outbox| - 1])
  }

  function AllMessages(node: bool, inbox: seq<Message>): nat {
    if inbox == [] then 0 else AllMessages(node, inbox[..|inbox| - 1]) + MessageWork(node, inbox[|inbox| - 1])
  }

  /** All work that is left before rest. */
  function Work(s: State): nat {
    AllRequests(s.node, s.outbox) + AllMessages(s.node, s.inbox) + AllRetries(s.node, s.retries)
  }

  function AllRetries(node: bool, retries: nat): nat {
    if retries == 0 then 0 else AllRetries(node, retries - 1) + if node then 3 else 5
  }

  lemma {:induction false} FirstRequest(node: bool, outbox: seq<Request>)
    requires outbox != []
    ensures AllRequests(node, outbox) == RequestWork(node, outbox[0]) + AllRequests(node, outbox[1..])
  {
    var n := |outbox| - 1;
    if n > 0 {
      FirstRequest(node, outbox[..n]);
      assert outbox[..n][1..] == outbox[1..][..n - 1];
    }
  }

  lemma {:induction false} FirstMessage(node: bool, inbox: seq<Message>)
    requires inbox != []
    ensures AllMessages(node, inbox) == MessageWork(node, inbox[0]) + AllMessages(node, inbox[1..])
  {
    var n := |inbox| - 1;
    if n > 0 {
      FirstMessage(node, inbox[..n]);
      assert inbox[..n][1..] == inbox[1..][..n - 1];
    }
  }

  lemma OneRequest(node: bool, outbox: seq<Request>, r: Request)
    ensures AllRequests(node, outbox + [r]) == AllRequests(node, outbox) + RequestWork(node, r)
  {
    assert (outbox + [r])[..|outbox|] == outbox;
  }

  lemma OneMessage(node: bool, inbox: seq<Message>, m: Message)
    ensures AllMessages(node, inbox + [m]) == AllMessages(node, inbox) + MessageWork(node, m)
  {
    assert (inbox + [m])[..|inbox|] == inbox;
  }

  /** A step of the server, the client or a timer that has something to do, and does not fail. */
  predicate Works(s: State, e: Event) {
    || (e == Serve(false) && s.outbox != [])
    || (e == Receive && s.inbox != [])
    || (e == Retry && s.retries > 0)
  }

  lemma AnswerWorks(s: State, r: Request)
    ensures Work(Answer(s, r, false)) < Work(s) + RequestWork(s.node, r)
  {
    var s' := Answer(s, r, false);
    var m := s'.inbox[|s.inbox|];
    OneMessage(s.node, s.inbox, m);
    assert s'.inbox == s.inbox + [m] && MessageWork(s.node, m) < RequestWork(s.node, r);
  }

  lemma ServeWorks(s: State)
    requires s.outbox != []
    ensures Work(Next(s, Serve(false))) < Work(s)
  {
    FirstRequest(s.node, s.outbox);
    AnswerWorks(s.(outbox := s.outbox[1..]), s.outbox[0]);
  }

  lemma AfreshWork(s: State)
    ensures Work(Afresh(s)) == RequestWork(s.node, GetAndWatch)
  {
    OneRequest(s.node, [], GetAndWatch);
    assert [] + [GetAndWatch] == [GetAndWatch];
  }

  lemma HandleWorks(s: State, m: Message)
    ensures Work(Handle(s, m)) < Work(s) + MessageWork(s.node, m)
  {
    OneRequest(s.node, s.outbox, GetAndWatch);
    OneRequest(s.node, s.outbox, ExistsAndWatch);
    OneRequest(s.node, s.outbox, Get);
    match m
    case GetFailed => AfreshWork(s);
    case ExistsFailed => AfreshWork(s);
    case _ =>
  }

  lemma ReceiveWorks(s: State)
    requires s.inbox != []
    ensures Work(Next(s, Receive)) < Work(s)
  {
    FirstMessage(s.node, s.inbox);
    HandleWorks(s.(inbox := s.inbox[1..]), s.inbox[0]);
  }

  lemma RetryWorks(s: State)
    requires s.retries > 0
    ensures Work(Next(s, Retry)) < Work(s)
  {
    OneRequest(s.node, s.outbox, GetAndWatch);
  }

  predicate AllWork(s: State, events: seq<Event>)
    decreases |events|
  {
    events == [] || (Works(s, events[0]) && AllWork(Next(s, events[0]), events[1..]))
  }

  lemma {:induction false} WorkRunsOut(s: State, events: seq<Event>)
    requires AllWork(s, events)
    ensures |events| + Work(Run(s, events)) <= Work(s)
    ensures Healthy(s, events)
    decreases |events|
  {
    if events != [] {
      match events[0] {
        case Serve(_) => ServeWorks(s);
        case Receive => ReceiveWorks(s);
        case Retry => RetryWorks(s);
      }
      WorkRunsOut(Next(s, events[0]), events[1..]);
    }
  }

  lemma NoWorkIsRest(s: State)
    requires Work(s) == 0
    ensures Quiescent(s)
  {
    if s.outbox != [] {
      FirstRequest(s.node, s.outbox);
    }
    if s.inbox != [] {
      FirstMessage(s.node, s.inbox);
    }
  }

  lemma {:induction false} HealthyOn(s: State, before: seq<Event>, after: seq<Event>)
    requires Healthy(s, before) && Healthy(Run(s, before), after)
    ensures Healthy(s, before + after) && Run(s, before + after) == Run(Run(s, before), after)
    decreases |before|
  {
    if before == [] {
      assert before + after == after;
    } else {
      assert (before + after)[1..] == before[1..] + after;
      HealthyOn(Next(s, before[0]), before[1..], after);
    }
  }

  /**
   * Once changes, failures and lost sessions cease, no more steps are left than `Work` says, in whatever order they are
   * taken; and when none is left, what was delivered last is what the node holds.
   */
  lemma SettlesInTime(node: bool, changes: nat, before: seq<Event>, steps: seq<Event>)
    requires Healthy(Start(node, changes), before)
    requires AllWork(Run(Start(node, changes), before), steps)
    ensures var s := Run(Start(node, changes), before);
      var r := Run(s, steps);
      && |steps| <= Work(s)
      && (forall e :: !Works(r, e)) == Quiescent(r)
      && (Quiescent(r) ==> r.armed > 0 && (r.node ==> r.delivered == Some(r.changes)))
  {
    var s := Run(Start(node, changes), before);
    var r := Run(s, steps);
    WorkRunsOut(s, steps);
    HealthyOn(Start(node, changes), before, steps);
    if Quiescent(r) {
      SettlesOnTheTruth(node, changes, before + steps);
    } else {
      assert Works(r, Serve(false)) || Works(r, Receive) || Works(r, Retry);
    }
  }

  /** What a single failure of `exists` can do: the node is deleted and created again, and the client never hears of it. */
  lemma DeafAfterFailedExists() returns (events: seq<Event>)
    ensures var s := Run(Start(true, 0), events);
      Quiescent(s) && !Watchful(s) && s.node && s.delivered != Some(s.changes)
  {
    var s0, s3, s6, s9 := Start(true, 0), State(false, 1, 0, [], [Fired], 0, true, Some(0)),
      State(false, 1, 0, [ExistsAndWatch], [], 0, true, Some(0)), State(true, 2, 0, [], [], 0, true, Some(0));
    FirstThree(s0, s3);
    NextThree(s3, s6);
    LastThree(s6, s9);
    var e1, e2, e3 := [Serve(false), Receive, Change(false)], [Receive, Serve(false), Receive],
      [Serve(true), Receive, Change(true)];
    events := e1 + (e2 + e3);
    RunThree(s0, e1, e2 + e3);
    RunThree(s3, e2, e3);
    RunThree(s6, e3, []);
    assert e3 + [] == e3;
  }

  lemma FirstThree(s0: State, s3: State)
    requires s0 == Start(true, 0) && s3 == State(false, 1, 0, [], [Fired], 0, true, Some(0))
    ensures Next(Next(Next(s0, Serve(false)), Receive), Change(false)) == s3
  {
    assert Next(s0, Serve(false)) == State(true, 0, 1, [], [Got(Content(0))], 0, false, None);
    assert Next(Next(s0, Serve(false)), Receive) == State(true, 0, 1, [], [], 0, true, Some(0));
    assert Fireds(1) == [Fired];
  }

  lemma NextThree(s3: State, s6: State)
    requires s3 == State(false, 1, 0, [], [Fired], 0, true, Some(0))
    requires s6 == State(false, 1, 0, [ExistsAndWatch], [], 0, true, Some(0))
    ensures Next(Next(Next(s3, Receive), Serve(false)), Receive) == s6
  {
    assert Next(s3, Receive) == State(false, 1, 0, [GetAndWatch], [], 0, true, Some(0));
    assert Next(Next(s3, Receive), Serve(false)) == State(false, 1, 0, [], [Got(Missing)], 0, true, Some(0));
  }

  lemma LastThree(s6: State, s9: State)
    requires s6 == State(false, 1, 0, [ExistsAndWatch], [], 0, true, Some(0))
    requires s9 == State(true, 2, 0, [], [], 0, true, Some(0))
    ensures Next(Next(Next(s6, Serve(true)), Receive), Change(true)) == s9
  {
    assert Next(s6, Serve(true)) == State(false, 1, 0, [], [ExistsFailed], 0, true, Some(0));
    assert Next(Next(s6, Serve(true)), Receive) == State(false, 1, 0, [], [], 0, true, Some(0));
    assert Fireds(0) == [];
  }

  lemma RunThree(s: State, three: seq<Event>, rest: seq<Event>)
    requires |three| == 3
    ensures Run(s, three + rest) == Run(Next(Next(Next(s, three[0]), three[1]), three[2]), rest)
  {
    var s1 := Next(s, three[0]);
    var s2 := Next(s1, three[1]);
    assert (three + rest)[1..] == three[1..] + rest;
    assert (three[1..] + rest)[1..] == three[2..] + rest;
    assert (three[2..] + rest)[1..] == rest;
    assert Run(s2, three[2..] + rest) == Run(Next(s2, three[2]), rest);
    assert Run(s1, three[1..] + rest) == Run(s2, three[2..] + rest);
  }

  // --- Exactly when it goes deaf

  /** Nothing but the oldest request leads to setting a watch. */
  predicate OnlyTheRequest(s: State) {
    && s.armed == 0 && s.retries == 0
    && (forall i :: 0 <= i < |s.inbox| ==> !Rearms(s, s.inbox[i]))
    && (forall i :: 1 <= i < |s.outbox| ==> s.outbox[i] == Get)
  }

  lemma {:induction false} RunIsEarly(s: State, events: seq<Event>)
    requires Early(s)
    ensures Early(Run(s, events))
    decreases |events|
  {
    if events != [] {
      match events[0] {
        case Change(node) => ChangeKeepsEarly(s, node);
        case Serve(fails) =>
          if s.outbox != [] {
            ServeKeepsEarly(s, fails);
          }
        case _ =>
      }
      RunIsEarly(Next(s, events[0]), events[1..]);
    }
  }

  /**
   * In any run, healthy or not, a step makes the loop deaf exactly if a failing `exists` after the initial callback was
   * all that would have set a watch.
   */
  lemma DeafExactlyWhen(node: bool, changes: nat, events: seq<Event>, e: Event)
    requires Watchful(Run(Start(node, changes), events))
    ensures var s := Run(Start(node, changes), events);
      !Watchful(Next(s, e)) <==> ExistsFails(s, e) && OnlyTheRequest(s)
  {
    RunIsEarly(Start(node, changes), events);
    var s := Run(Start(node, changes), events);
    if ExistsFails(s, e) {
      DeafByRequest(s);
    } else {
      match e
      case Change(node) => ChangeKeepsWatchful(s, node);
      case Serve(fails) =>
        if s.outbox != [] {
          ServeKeepsWatchful(s, fails);
        }
      case Receive =>
        if s.inbox != [] {
          ReceiveKeepsWatchful(s);
        }
      case Retry =>
        if s.retries > 0 {
          assert Next(s, e).outbox[|s.outbox|] != Get;
        }
      case NewSession => assert Next(s, e).outbox[0] != Get;
    }
  }

  lemma DeafByRequest(s: State)
    requires ExistsFails(s, Serve(true))
    ensures !Watchful(Next(s, Serve(true))) <==> OnlyTheRequest(s)
  {
    var s' := Next(s, Serve(true));
    assert s'.inbox == s.inbox + [ExistsFailed] && s'.outbox == s.outbox[1..];
    if i :| 0 <= i < |s.inbox| && Rearms(s, s.inbox[i]) {
      assert Rearms(s', s'.inbox[i]);
    }
    if i :| 1 <= i < |s.outbox| && s.outbox[i] != Get {
      assert s'.outbox[i - 1] != Get;
    }
  }

  /** Once deaf and at rest, the loop never delivers anything again in that session. */
  lemma {:induction false} DeafForever(s: State, events: seq<Event>)
    requires Quiescent(s) && s.armed == 0
    requires forall i :: 0 <= i < |events| ==> !events[i].NewSession?
    ensures var s' := Run(s, events);
      Quiescent(s') && s'.armed == 0 && s'.delivered == s.delivered
    decreases |events|
  {
    if events != [] {
      assert Fireds(0) == [];
      DeafForever(Next(s, events[0]), events[1..]);
    }
  }

  // --- Failed reads

  /** After the initial callback a `getData` that fails is tried again: in the end the request is there as before. */
  lemma FailedGetIsRetried(s: State, request: Request)
    requires s.called && s.outbox == [request] && request in {GetAndWatch, Get} && s.inbox == []
    ensures var r := Next(Next(Next(s, Serve(true)), Receive), Retry);
      r == s.(outbox := [GetAndWatch])
  {
  }

  /** Before it the client is set up anew, and so again until a read works; then the content is handed over. */
  lemma FailedSetUpStartsOver(s: State)
    requires !s.called && s.outbox == [GetAndWatch] && s.inbox == [] && s.retries == 0 && s.armed == 0
    ensures Next(Next(s, Serve(true)), Receive) == s
    ensures s.node ==> Next(Next(s, Serve(false)), Receive) == s.(outbox := [], armed := 1, called := true, delivered := Some(s.changes))
    ensures Next(s, NewSession) == s
  {
  }
}
