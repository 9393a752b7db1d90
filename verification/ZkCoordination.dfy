/**
 * Any number of managers and operator commands that change one shard's cluster state through ZooKeeper
 * (lib/zookeeperMgr.js, lib/adm.js): each works from the state and version it last saw, and commits with a
 * transaction that sets the state only at that version and appends a history node.
 */
module ZkCoordination {
  import opened Wrappers
  import opened Sequences
  import opened ClusterStates

  /** A state together with its znode's version. */
  datatype Versioned = Versioned(state: ClusterState, version: nat)

  /** A child of the history directory; `seqno` is the suffix that ZooKeeper appends to its name. */
  datatype HistoryNode = HistoryNode(prefix: int, seqno: nat, state: ClusterState)

  datatype Server = Server(node: Option<Versioned>, history: seq<HistoryNode>, counter: nat)

  datatype Kind = Manager | Command

  /** A transaction: the new state, and what its writer had read (None: the state node is to be created). */
  datatype Request =
    | Read
    | Commit(edit: Edit, state: ClusterState, basis: Option<Versioned>)

  datatype Reply =
    | ReadReply(found: Option<Versioned>)
    | Committed(now: Versioned)
    | Rejected

  /** A session: what the client last saw, its requests on the way to the server, and the replies on the way back. */
  datatype Writer = Writer(kind: Kind, cache: Option<Versioned>, outbox: seq<Request>, inbox: seq<Reply>)

  /** A committed transaction, in the order of commitment. */
  datatype Entry = Entry(edit: Edit, state: ClusterState, basis: Option<Versioned>)

  datatype System = System(server: Server, writers: map<nat, Writer>, log: seq<Entry>)

  datatype Event =
    | Join(id: nat, kind: Kind)
    | SendRead(id: nat)
    | SendCommit(id: nat, edit: Edit)
    | Serve(id: nat)
    | Deliver(id: nat)
    | Lose(id: nat)                    // the connection breaks: whatever is in transit is lost

  /** `putClusterState` and `_putState` after an edit: only a manager's or backfill's full state can create the node. */
  function CommitRequest(cache: Option<Versioned>, edit: Edit): Option<Request> {
    var state := if cache.Some? then Applied(edit, cache.value.state)
                 else if edit.Replace? then Some(edit.state) else None;
    if state.Some? then Some(Commit(edit, state.value, cache)) else None
  }

  /** A manager names history nodes by generation, the commands by 0. */
  function HistoryPrefix(kind: Kind, state: ClusterState): int {
    if kind.Manager? then state.generation else 0
  }

  predicate Accepts(server: Server, basis: Option<Versioned>) {
    if basis.Some? then server.node.Some? && server.node.value.version == basis.value.version
    else server.node.None?
  }

  function Served(server: Server, kind: Kind, r: Request): (Server, Reply) {
    match r
    case Read => (server, ReadReply(server.node))
    case Commit(_, state, basis) =>
      if Accepts(server, basis) then
        var now := Versioned(state, if basis.Some? then basis.value.version + 1 else 0);
        (Server(Some(now), server.history + [HistoryNode(HistoryPrefix(kind, state), server.counter, state)],
                server.counter + 1),
         Committed(now))
      else (server, Rejected)
  }

  /** `handleClusterState` and `onPut`; a command has nothing to do after its commit. */
  function Received(w: Writer, reply: Reply): Writer {
    match reply
    case ReadReply(Some(v)) => w.(cache := Some(v))
    case Committed(now) => if w.kind.Manager? then w.(cache := Some(now)) else w
    case _ => w
  }

  function NextWriter(w: Writer, e: Event): Writer {
    match e
    case SendRead(_) => w.(outbox := w.outbox + [Read])
    case SendCommit(_, edit) =>
      var r := CommitRequest(w.cache, edit);
      if r.Some? then w.(outbox := w.outbox + [r.value]) else w
    case Deliver(_) => if w.inbox == [] then w else Received(w.(inbox := w.inbox[1..]), w.inbox[0])
    case Lose(_) => w.(outbox := [], inbox := [])
    case _ => w
  }

  function Next(s: System, e: Event): System {
    if e.Join? then
      if e.id in s.writers then s else s.(writers := s.writers[e.id := Writer(e.kind, None, [], [])])
    else if e.id !in s.writers then s
    else
      var w := s.writers[e.id];
      if !e.Serve? then s.(writers := s.writers[e.id := NextWriter(w, e)])
      else if w.outbox == [] then s
      else
        var (server, reply) := Served(s.server, w.kind, w.outbox[0]);
        var log := if reply.Committed?
                   then s.log + [Entry(w.outbox[0].edit, w.outbox[0].state, w.outbox[0].basis)] else s.log;
        System(server, s.writers[e.id := w.(outbox := w.outbox[1..], inbox := w.inbox + [reply])], log)
  }

  function Run(s: System, events: seq<Event>): System
    decreases |events|
  {
    if events == [] then s else Run(Next(s, events[0]), events[1..])
  }

  predicate Initial(s: System) {
    s.server.node.None? && s.server.history == [] && s.writers == map[] && s.log == []
  }

  // --- The invariant

  /** The server really held this state at this version. */
  predicate Held(log: seq<Entry>, v: Option<Versioned>) {
    v.Some? ==> v.value.version < |log| && log[v.value.version].state == v.value.state
  }

  /** The new state is the edit applied to what was read. */
  predicate Derived(edit: Edit, state: ClusterState, basis: Option<Versioned>) {
    if basis.Some? then Applied(edit, basis.value.state) == Some(state) else edit == Replace(state)
  }

  predicate RequestInv(log: seq<Entry>, r: Request) {
    r.Commit? ==> Held(log, r.basis) && Derived(r.edit, r.state, r.basis)
  }

  predicate ReplyInv(log: seq<Entry>, r: Reply) {
    (r.ReadReply? ==> Held(log, r.found)) && (r.Committed? ==> Held(log, Some(r.now)))
  }

  predicate WriterInv(log: seq<Entry>, w: Writer) {
    && Held(log, w.cache)
    && (forall i :: 0 <= i < |w.outbox| ==> RequestInv(log, w.outbox[i]))
    && (forall i :: 0 <= i < |w.inbox| ==> ReplyInv(log, w.inbox[i]))
  }

  /** The state at each point of the log, with the version it had then. */
  function At(log: seq<Entry>, n: nat): Option<Versioned>
    requires n <= |log|
  {
    if n == 0 then None else Some(Versioned(log[n - 1].state, n - 1))
  }

  /** Every committed transaction replaced exactly the state its writer had read. */
  predicate NoLostUpdate(log: seq<Entry>) {
    forall n {:trigger ReplacesWhatWasRead(log, n)} :: 0 <= n < |log| ==> ReplacesWhatWasRead(log, n)
  }

  predicate ReplacesWhatWasRead(log: seq<Entry>, n: nat)
    requires n < |log|
  {
    log[n].basis == At(log, n) && Derived(log[n].edit, log[n].state, log[n].basis)
  }

  predicate HistoryMatches(history: seq<HistoryNode>, counter: nat, log: seq<Entry>) {
    && |history| == |log|
    && (forall n :: 0 <= n < |log| ==> history[n].state == log[n].state && history[n].seqno < counter)
    && (forall m, n :: 0 <= m < n < |log| ==> history[m].seqno < history[n].seqno)
  }

  predicate LogInv(server: Server, log: seq<Entry>) {
    && server.node == At(log, |log|)
    && HistoryMatches(server.history, server.counter, log)
    && NoLostUpdate(log)
  }

  predicate Inv(s: System) {
    && LogInv(s.server, s.log)
    && forall id :: id in s.writers ==> WriterInv(s.log, s.writers[id])
  }

  lemma HeldLonger(log: seq<Entry>, entry: Entry, w: Writer)
    requires WriterInv(log, w)
    ensures WriterInv(log + [entry], w)
  {
    forall i | 0 <= i < |w.outbox| ensures RequestInv(log + [entry], w.outbox[i]) {
      assert RequestInv(log, w.outbox[i]);
    }
    forall i | 0 <= i < |w.inbox| ensures ReplyInv(log + [entry], w.inbox[i]) {
      assert ReplyInv(log, w.inbox[i]);
    }
  }

  lemma WriterKeeps(log: seq<Entry>, w: Writer, e: Event)
    requires WriterInv(log, w)
    ensures WriterInv(log, NextWriter(w, e))
  {
    if e.Deliver? && w.inbox != [] {
      assert ReplyInv(log, w.inbox[0]);
    }
  }

  /** A transaction is accepted only when the server still holds what its writer had read. */
  lemma AcceptedIsCurrent(server: Server, log: seq<Entry>, basis: Option<Versioned>)
    requires server.node == At(log, |log|) && Held(log, basis) && Accepts(server, basis)
    ensures basis == At(log, |log|)
  {
  }

  lemma LogGrows(log: seq<Entry>, entry: Entry)
    requires NoLostUpdate(log) && entry.basis == At(log, |log|) && Derived(entry.edit, entry.state, entry.basis)
    ensures NoLostUpdate(log + [entry])
  {
    var log' := log + [entry];
    forall n | 0 <= n < |log'| ensures ReplacesWhatWasRead(log', n) {
      assert n < |log| ==> ReplacesWhatWasRead(log, n);
    }
  }

  lemma HistoryGrows(history: seq<HistoryNode>, counter: nat, log: seq<Entry>, node: HistoryNode, entry: Entry)
    requires HistoryMatches(history, counter, log) && node.state == entry.state && node.seqno == counter
    ensures HistoryMatches(history + [node], counter + 1, log + [entry])
  {
  }

  lemma CommitKeepsLog(server: Server, log: seq<Entry>, kind: Kind, r: Request)
    requires LogInv(server, log) && RequestInv(log, r) && r.Commit? && Accepts(server, r.basis)
    ensures LogInv(Served(server, kind, r).0, log + [Entry(r.edit, r.state, r.basis)])
    ensures ReplyInv(log + [Entry(r.edit, r.state, r.basis)], Served(server, kind, r).1)
  {
    var entry := Entry(r.edit, r.state, r.basis);
    AcceptedIsCurrent(server, log, r.basis);
    LogGrows(log, entry);
    HistoryGrows(server.history, server.counter, log, Served(server, kind, r).0.history[|log|], entry);
  }

  lemma FirstTaken(log: seq<Entry>, w: Writer)
    requires WriterInv(log, w) && w.outbox != []
    ensures RequestInv(log, w.outbox[0]) && WriterInv(log, w.(outbox := w.outbox[1..]))
  {
  }

  lemma ServeKeeps(s: System, id: nat)
    requires Inv(s) && id in s.writers && s.writers[id].outbox != []
    ensures Inv(Next(s, Serve(id)))
  {
    var w := s.writers[id];
    var r := w.outbox[0];
    var (server, reply) := Served(s.server, w.kind, r);
    var w1 := w.(outbox := w.outbox[1..]);
    var log' := Next(s, Serve(id)).log;
    FirstTaken(s.log, w);
    if reply.Committed? {
      CommitKeepsLog(s.server, s.log, w.kind, r);
      forall i | i in s.writers ensures WriterInv(log', s.writers[i]) {
        HeldLonger(s.log, Entry(r.edit, r.state, r.basis), s.writers[i]);
      }
      HeldLonger(s.log, Entry(r.edit, r.state, r.basis), w1);
    } else {
      assert ReplyInv(s.log, reply);
    }
    AnswerKept(log', w1, reply);
  }

  lemma AnswerKept(log: seq<Entry>, w: Writer, reply: Reply)
    requires WriterInv(log, w) && ReplyInv(log, reply)
    ensures WriterInv(log, w.(inbox := w.inbox + [reply]))
  {
  }

  lemma NextKeeps(s: System, e: Event)
    requires Inv(s)
    ensures Inv(Next(s, e))
  {
    if e.Serve? && e.id in s.writers && s.writers[e.id].outbox != [] {
      ServeKeeps(s, e.id);
    } else if !e.Join? && e.id in s.writers {
      WriterKeeps(s.log, s.writers[e.id], e);
    }
  }

  lemma {:induction false} RunKeeps(s: System, events: seq<Event>)
    requires Inv(s)
    ensures Inv(Run(s, events))
    decreases |events|
  {
    if events != [] {
      NextKeeps(s, events[0]);
      RunKeeps(Next(s, events[0]), events[1..]);
    }
  }

  // --- What holds in every run

  /**
   * No update is lost, whatever the interleaving: every cached pair was really held, every committed transaction
   * replaced exactly what its writer had read, and the version counts the commits.
   */
  lemma NoUpdateIsLost(s: System, events: seq<Event>)
    requires Initial(s)
    ensures var r := Run(s, events);
      && NoLostUpdate(r.log)
      && r.server.node == At(r.log, |r.log|)
      && forall id :: id in r.writers ==> Held(r.log, r.writers[id].cache)
  {
    RunKeeps(s, events);
    forall id | id in Run(s, events).writers ensures Held(Run(s, events).log, Run(s, events).writers[id].cache) {
      assert WriterInv(Run(s, events).log, Run(s, events).writers[id]);
    }
  }

  /** All edits in order, each applied to the result of the one before. */
  function Replay(log: seq<Entry>): Option<ClusterState> {
    if log == [] then None
    else
      var last := log[|log| - 1].edit;
      var before := Replay(log[..|log| - 1]);
      if before.Some? then Applied(last, before.value) else if last.Replace? then Some(last.state) else None
  }

  lemma {:induction false} ReplayGivesState(log: seq<Entry>)
    requires NoLostUpdate(log)
    ensures Replay(log) == if log == [] then None else Some(log[|log| - 1].state)
  {
    if log != [] {
      var n := |log| - 1;
      var before := log[..n];
      forall k | 0 <= k < |before| ensures ReplacesWhatWasRead(before, k) {
        assert ReplacesWhatWasRead(log, k);
      }
      ReplayGivesState(before);
      assert ReplacesWhatWasRead(log, n);
    }
  }

  /** The server's state is the outcome of all committed edits, one after the other. */
  lemma StateIsReplay(s: System, events: seq<Event>)
    requires Initial(s)
    ensures var r := Run(s, events);
      Replay(r.log) == if r.server.node.Some? then Some(r.server.node.value.state) else None
  {
    RunKeeps(s, events);
    ReplayGivesState(Run(s, events).log);
  }

  lemma FreezeKept(edit: Edit, before: ClusterState, after: ClusterState)
    requires Derived(edit, after, Some(Versioned(before, 0))) && before.freeze.Some?
    requires !edit.UnfreezeShard? && !edit.Replace?
    ensures after.freeze == before.freeze
  {
    EditsKeepTheRest(edit, before);
  }

  /** From a committed freeze on, the shard stays frozen until someone unfreezes it or a manager, having read it, replaces it. */
  lemma {:induction false} FreezeSurvives(log: seq<Entry>, n: nat, m: nat)
    requires NoLostUpdate(log) && n <= m < |log|
    requires log[n].edit.FreezeShard?
    requires forall k :: n < k <= m ==> !log[k].edit.UnfreezeShard? && !log[k].edit.Replace?
    ensures log[m].state.freeze == Some(log[n].edit.freeze)
    decreases m
  {
    assert ReplacesWhatWasRead(log, m);
    if n < m {
      FreezeSurvives(log, n, m - 1);
      FreezeKept(log[m].edit, log[m - 1].state, log[m].state);
    }
  }

  // --- What gets through

  /** Nothing of the session is in transit. */
  predicate Idle(w: Writer) {
    w.outbox == [] && w.inbox == []
  }

  function RunOf(s: System, e1: Event, e2: Event, e3: Event): System {
    Next(Next(Next(s, e1), e2), e3)
  }

  /** Whoever reads sees what the server holds. */
  lemma ReadingCatchesUp(s: System, id: nat)
    requires id in s.writers && Idle(s.writers[id]) && s.server.node.Some?
    ensures var r := RunOf(s, SendRead(id), Serve(id), Deliver(id));
      && r.server == s.server && id in r.writers
      && Idle(r.writers[id]) && r.writers[id].cache == s.server.node
  {
  }

  /** The state that a writer would put: a first one, or an edit of what it knows. */
  function Intended(cache: Option<Versioned>, edit: Edit): Option<ClusterState> {
    if cache.Some? then Applied(edit, cache.value.state) else if edit.Replace? then Some(edit.state) else None
  }

  /** The version that a state gets when it is put. */
  function VersionAfter(node: Option<Versioned>): nat {
    if node.None? then 0 else node.value.version + 1
  }

  /**
   * Whoever knows what the server holds (or that it holds nothing) gets its edit through: the server then holds the edited
   * state at the next version, with one more history node, and a manager knows it.
   */
  lemma KnowingIsEnough(s: System, id: nat, edit: Edit)
    requires id in s.writers && Idle(s.writers[id]) && s.writers[id].cache == s.server.node
    requires Intended(s.server.node, edit).Some?
    ensures var w, r := s.writers[id], RunOf(s, SendCommit(id, edit), Serve(id), Deliver(id));
      var now := Versioned(Intended(s.server.node, edit).value, VersionAfter(s.server.node));
      && r.server.node == Some(now)
      && r.server.history == s.server.history + [HistoryNode(if w.kind.Manager? then now.state.generation else 0, s.server.counter, now.state)]
      && id in r.writers && Idle(r.writers[id])
      && r.writers[id].cache == if w.kind.Manager? then Some(now) else w.cache
  {
    var w := s.writers[id];
    var s1 := Next(s, SendCommit(id, edit));
    assert s1.writers[id].outbox == [Commit(edit, Intended(w.cache, edit).value, w.cache)];
  }

  /** A command that connects, reads and edits gets its edit through, if nobody comes in between. */
  lemma NewcomerGetsThrough(s: System, id: nat, kind: Kind, edit: Edit)
    requires id !in s.writers && s.server.node.Some? && Applied(edit, s.server.node.value.state).Some?
    ensures var r := Run(s, [Join(id, kind), SendRead(id), Serve(id), Deliver(id), SendCommit(id, edit), Serve(id), Deliver(id)]);
      r.server.node == Some(Versioned(Applied(edit, s.server.node.value.state).value, s.server.node.value.version + 1))
  {
    var rest := [SendCommit(id, edit), Serve(id), Deliver(id)];
    var reading := [SendRead(id), Serve(id), Deliver(id)] + rest;
    var all := [Join(id, kind), SendRead(id), Serve(id), Deliver(id), SendCommit(id, edit), Serve(id), Deliver(id)];
    assert all[1..] == reading;
    var s1 := Next(s, Join(id, kind));
    RunThree(s1, SendRead(id), Serve(id), Deliver(id), rest);
    ReadingCatchesUp(s1, id);
    var s2 := RunOf(s1, SendRead(id), Serve(id), Deliver(id));
    RunThree(s2, SendCommit(id, edit), Serve(id), Deliver(id), []);
    assert rest + [] == rest;
    KnowingIsEnough(s2, id, edit);
  }

  /** What is in transit when a connection breaks is neither executed nor answered; what was known before is kept. */
  lemma LostInTransit(s: System, id: nat)
    requires id in s.writers
    ensures var r := RunOf(s, Lose(id), Serve(id), Deliver(id));
      && r.server == s.server && r.log == s.log && id in r.writers
      && Idle(r.writers[id]) && r.writers[id].cache == s.writers[id].cache
  {
  }

  /** Whoever does not is refused, and nothing is written. */
  lemma NotKnowingIsRefused(s: System, id: nat, edit: Edit)
    requires id in s.writers && Idle(s.writers[id]) && Intended(s.writers[id].cache, edit).Some?
    requires s.writers[id].cache.None? != s.server.node.None?
      || (s.server.node.Some? && s.writers[id].cache.value.version != s.server.node.value.version)
    ensures RunOf(s, SendCommit(id, edit), Serve(id), Deliver(id)) == s
  {
    var w := s.writers[id];
    var s1 := Next(s, SendCommit(id, edit));
    assert s1.writers[id].outbox == [Commit(edit, Intended(w.cache, edit).value, w.cache)];
    var s2 := Next(s1, Serve(id));
    assert s2.writers[id].outbox == [] && s2.writers[id].inbox == [Rejected];
    var s3 := Next(s2, Deliver(id));
    assert s3.writers[id] == w;
    assert s3.writers == s.writers;
  }

  /** A manager that writes alone goes from state to state: each put is accepted and known before the next. */
  lemma {:induction false} LoneManagerGetsThrough(s: System, id: nat, states: seq<ClusterState>)
    requires id in s.writers && s.writers[id].kind.Manager? && Idle(s.writers[id]) && s.writers[id].cache == s.server.node
    requires states != []
    ensures var r := Run(s, Puts(id, states));
      && r.server.node.Some? && r.server.node.value.state == states[|states| - 1]
      && r.server.node.value.version == VersionAfter(s.server.node) + |states| - 1
    decreases |states|
  {
    KnowingIsEnough(s, id, Replace(states[0]));
    var e1, e2, e3 := SendCommit(id, Replace(states[0])), Serve(id), Deliver(id);
    var s' := RunOf(s, e1, e2, e3);
    assert s'.writers[id].kind.Manager?;
    RunThree(s, e1, e2, e3, Puts(id, states[1..]));
    if |states| > 1 {
      LoneManagerGetsThrough(s', id, states[1..]);
    }
  }

  function Puts(id: nat, states: seq<ClusterState>): seq<Event> {
    if states == [] then [] else [SendCommit(id, Replace(states[0])), Serve(id), Deliver(id)] + Puts(id, states[1..])
  }

  lemma RunThree(s: System, e1: Event, e2: Event, e3: Event, rest: seq<Event>)
    ensures Run(s, [e1, e2, e3] + rest) == Run(RunOf(s, e1, e2, e3), rest)
  {
    assert ([e1, e2, e3] + rest)[1..] == [e2, e3] + rest;
    assert ([e2, e3] + rest)[1..] == [e3] + rest;
    assert ([e3] + rest)[1..] == rest;
    assert Run(Next(s, e1), [e2, e3] + rest) == Run(Next(Next(s, e1), e2), [e3] + rest);
  }

  // --- What a session sees

  /** The version that a reply brings, if it brings one. */
  function VersionOf(reply: Reply): Option<nat> {
    match reply
    case ReadReply(Some(v)) => Some(v.version)
    case Committed(now) => Some(now.version)
    case _ => None
  }

  /** The pair in the cache is no newer than any on the way to it, and those come in the order of their versions. */
  predicate InOrder(server: Server, w: Writer) {
    && (forall i :: 0 <= i < |w.inbox| && VersionOf(w.inbox[i]).Some? ==>
          && server.node.Some? && VersionOf(w.inbox[i]).value <= server.node.value.version
          && (w.cache.Some? ==> w.cache.value.version <= VersionOf(w.inbox[i]).value))
    && (forall i, j :: 0 <= i < j < |w.inbox| && VersionOf(w.inbox[i]).Some? && VersionOf(w.inbox[j]).Some? ==>
          VersionOf(w.inbox[i]).value <= VersionOf(w.inbox[j]).value)
    && (w.cache.Some? ==> server.node.Some? && w.cache.value.version <= server.node.value.version)
  }

  predicate AllInOrder(s: System) {
    forall id :: id in s.writers ==> InOrder(s.server, s.writers[id])
  }

  /** The server's version never falls. */
  predicate NotOlder(a: Server, b: Server) {
    a.node.Some? ==> b.node.Some? && a.node.value.version <= b.node.value.version
  }

  lemma InOrderLater(a: Server, b: Server, w: Writer)
    requires InOrder(a, w) && NotOlder(a, b)
    ensures InOrder(b, w)
  {
  }

  lemma ReplyInOrder(server: Server, w: Writer, reply: Reply)
    requires InOrder(server, w)
    requires VersionOf(reply).Some? ==> server.node.Some? && VersionOf(reply).value == server.node.value.version
    ensures InOrder(server, w.(outbox := w.outbox[1..], inbox := w.inbox + [reply]))
    requires w.outbox != []
  {
  }

  lemma DeliverInOrder(server: Server, w: Writer)
    requires InOrder(server, w) && w.inbox != []
    ensures InOrder(server, Received(w.(inbox := w.inbox[1..]), w.inbox[0]))
  {
    assert forall i :: 0 <= i < |w.inbox| - 1 ==> w.inbox[1..][i] == w.inbox[i + 1];
  }

  lemma NextInOrder(s: System, e: Event)
    requires AllInOrder(s)
    ensures AllInOrder(Next(s, e))
  {
    if !e.Join? && e.id in s.writers {
      var w := s.writers[e.id];
      if e.Serve? && w.outbox != [] {
        var (server, reply) := Served(s.server, w.kind, w.outbox[0]);
        forall id | id in s.writers ensures InOrder(server, s.writers[id]) {
          InOrderLater(s.server, server, s.writers[id]);
        }
        ReplyInOrder(server, w, reply);
      } else if e.Deliver? && w.inbox != [] {
        DeliverInOrder(s.server, w);
      }
    }
  }

  lemma {:induction false} RunInOrder(s: System, events: seq<Event>)
    requires AllInOrder(s)
    ensures AllInOrder(Run(s, events))
    decreases |events|
  {
    if events != [] {
      NextInOrder(s, events[0]);
      RunInOrder(Next(s, events[0]), events[1..]);
    }
  }

  /** However reads, commits and the watches' reads overlap, no one's cache ever goes back to an older version. */
  lemma CacheNeverGoesBack(s: System, events: seq<Event>, e: Event, id: nat)
    requires Initial(s) && id in Run(s, events).writers && Run(s, events).writers[id].cache.Some?
    ensures var before, after := Run(s, events), Next(Run(s, events), e);
      && id in after.writers && after.writers[id].cache.Some?
      && before.writers[id].cache.value.version <= after.writers[id].cache.value.version
  {
    RunInOrder(s, events);
    var r := Run(s, events);
    assert InOrder(r.server, r.writers[id]);
  }

  // --- Reading the history back

  const SEQNO := (n: HistoryNode) => n.seqno as int

  lemma StrictlySorted(history: seq<HistoryNode>, counter: nat, log: seq<Entry>)
    requires HistoryMatches(history, counter, log)
    ensures SortedBy(history, SEQNO) && DistinctBy(history, SEQNO)
  {
  }

  /**
   * `history`: the children of the history directory come in any order; sorted by sequence number they are exactly
   * the committed states in order, the last is the current state, and there is one more of them than its version.
   */
  lemma HistoryIsTheCommits(s: System, events: seq<Event>, children: seq<HistoryNode>, sorted: seq<HistoryNode>)
    requires Initial(s)
    requires multiset(children) == multiset(Run(s, events).server.history)
    requires multiset(sorted) == multiset(children) && SortedBy(sorted, SEQNO)
    ensures var r := Run(s, events);
      && |sorted| == |r.log|
      && (forall n :: 0 <= n < |sorted| ==> sorted[n].state == r.log[n].state)
      && (r.server.node.None? <==> sorted == [])
      && (r.server.node.Some? ==>
            && |sorted| == r.server.node.value.version + 1
            && sorted[|sorted| - 1].state == r.server.node.value.state)
  {
    RunKeeps(s, events);
    var r := Run(s, events);
    StrictlySorted(r.server.history, r.server.counter, r.log);
    SortIsUnique(sorted, r.server.history, SEQNO);
  }
}
