/**
 * The manager's own record of the shard in lib/zookeeperMgr.js: the active peers with their data, what it has told the
 * state machine, and the cached cluster state. Several listings of the election directory may be under way at once.
 */
module ZkManager {
  import opened Wrappers
  import opened Sequences
  import opened ActiveList
  import Zk = ZkCoordination
  import ClusterStates

  /** An active peer with the data of its ephemeral node. */
  datatype Peer = Peer(node: Active, data: string)

  /** A listing whose data is being fetched, with the data known when it came. */
  datatype Fetch = Fetch(actives: seq<Active>, known: map<string, Peer>)

  /** `emitted` holds the list of every 'init' and 'activeChange' so far. */
  datatype State = State(active: seq<Peer>, inited: bool, emitted: seq<seq<Peer>>, fetches: seq<Fetch>)

  datatype Event =
    | Listed(names: seq<string>, actives: seq<Active>)    // the children of the directory, and the list made of them
    | Fetched(k: nat, replies: map<string, string>)       // all answers for a listing; a failed read has none
    | SetUp                                               // everything is read for the first time

  function Nodes(peers: seq<Peer>): (nodes: seq<Active>)
    ensures |nodes| == |peers| && forall i :: 0 <= i < |nodes| ==> nodes[i] == peers[i].node
  {
    seq(|peers|, i requires 0 <= i < |peers| => peers[i].node)
  }

  function PeerIds(peers: seq<Peer>): (ids: seq<string>)
    ensures |ids| == |peers| && forall i :: 0 <= i < |ids| ==> ids[i] == peers[i].node.id
  {
    Ids(Nodes(peers))
  }

  // --- Fetching

  function Known(peers: seq<Peer>): map<string, Peer> {
    if peers == [] then map[]
    else Known(peers[..|peers| - 1])[peers[|peers| - 1].node.id := peers[|peers| - 1]]
  }

  /** The data is known: a number that is NaN never equals another. */
  predicate Hit(known: map<string, Peer>, n: Active) {
    n.id in known && n.seqno.Some? && known[n.id].node.seqno == n.seqno
  }

  function DataFor(known: map<string, Peer>, replies: map<string, string>, n: Active): Option<string> {
    if Hit(known, n) then Some(known[n.id].data)
    else if n.name in replies then Some(replies[n.name]) else None
  }

  predicate AllRead(known: map<string, Peer>, replies: map<string, string>, actives: seq<Active>) {
    forall i :: 0 <= i < |actives| ==> DataFor(known, replies, actives[i]).Some?
  }

  function Filled(known: map<string, Peer>, replies: map<string, string>, actives: seq<Active>): (peers: seq<Peer>)
    requires AllRead(known, replies, actives)
    ensures Nodes(peers) == actives
    ensures forall i :: 0 <= i < |actives| ==> peers[i].data == DataFor(known, replies, actives[i]).value
  {
    seq(|actives|, i requires 0 <= i < |actives| => Peer(actives[i], DataFor(known, replies, actives[i]).value))
  }

  // --- The steps

  function Arrived(s: State, peers: seq<Peer>): State {
    State(peers, s.inited,
          if s.inited && PeerIds(s.active) != PeerIds(peers) then s.emitted + [peers] else s.emitted, s.fetches)
  }

  /** With `caching` off, every node is read every time. */
  function Next(s: State, e: Event, caching: bool): State {
    match e
    case Listed(_, actives) => s.(fetches := s.fetches + [Fetch(actives, Known(s.active))])
    case Fetched(k, replies) =>
      if k >= |s.fetches| then s
      else
        var f := s.fetches[k];
        var known := if caching then f.known else map[];
        var s1 := s.(fetches := Without(s.fetches, k));
        if AllRead(known, replies, f.actives) then Arrived(s1, Filled(known, replies, f.actives)) else s1
    case SetUp => if s.inited then s else s.(inited := true, emitted := s.emitted + [s.active])
  }

  function Run(s: State, events: seq<Event>, caching: bool): State
    decreases |events|
  {
    if events == [] then s else Run(Next(s, events[0], caching), events[1..], caching)
  }

  const INITIAL := State([], false, [], [])

  /** The list is what `parseAndUniqueActives` makes of the names. */
  predicate WellFormed(e: Event) {
    e.Listed? ==> IsUniqueList(ParseAll(e.names), e.actives)
  }

  predicate AllWellFormed(events: seq<Event>) {
    forall i :: 0 <= i < |events| ==> WellFormed(events[i])
  }

  // --- Every ephemeral node is written once

  /** Only these nodes are ever listed, and a read that succeeds gives what the node was created with. */
  predicate Honest(e: Event, world: map<Active, string>) {
    && (e.Listed? ==> forall i :: 0 <= i < |e.actives| ==> e.actives[i] in world)
    && (e.Fetched? ==> forall n :: n in world && n.name in e.replies ==> e.replies[n.name] == world[n])
  }

  predicate AllHonest(events: seq<Event>, world: map<Active, string>) {
    forall i :: 0 <= i < |events| ==> Honest(events[i], world)
  }

  /** As ZooKeeper names sequential nodes: a number each, and never the same number twice for one id. */
  predicate NamedOnce(world: map<Active, string>) {
    && (forall n :: n in world ==> n.seqno.Some?)
    && (forall m, n :: m in world && n in world && m.id == n.id && m.seqno == n.seqno ==> m == n)
  }

  predicate HasItsData(p: Peer, world: map<Active, string>) {
    p.node in world && p.data == world[p.node]
  }

  predicate AllTrue(peers: seq<Peer>, world: map<Active, string>) {
    forall i :: 0 <= i < |peers| ==> HasItsData(peers[i], world)
  }

  predicate FetchTrue(f: Fetch, world: map<Active, string>) {
    && (forall i :: 0 <= i < |f.actives| ==> f.actives[i] in world)
    && (forall id :: id in f.known ==> f.known[id].node.id == id && HasItsData(f.known[id], world))
  }

  predicate StateTrue(s: State, world: map<Active, string>) {
    && AllTrue(s.active, world)
    && (forall i :: 0 <= i < |s.emitted| ==> AllTrue(s.emitted[i], world))
    && (forall i :: 0 <= i < |s.fetches| ==> FetchTrue(s.fetches[i], world))
  }

  lemma {:induction false} KnownIsTrue(peers: seq<Peer>, world: map<Active, string>)
    requires AllTrue(peers, world)
    ensures forall id :: id in Known(peers) ==> Known(peers)[id].node.id == id && HasItsData(Known(peers)[id], world)
  {
    if peers != [] {
      KnownIsTrue(peers[..|peers| - 1], world);
    }
  }

  /** A hit is the very node, so what is known of it is what a read would give. */
  lemma HitIsTheNode(f: Fetch, world: map<Active, string>, i: nat)
    requires FetchTrue(f, world) && NamedOnce(world) && i < |f.actives|
    requires Hit(f.known, f.actives[i])
    ensures f.known[f.actives[i].id].data == world[f.actives[i]]
  {
    assert HasItsData(f.known[f.actives[i].id], world);
  }

  lemma FilledIsTrue(f: Fetch, replies: map<string, string>, world: map<Active, string>)
    requires FetchTrue(f, world) && NamedOnce(world)
    requires AllRead(f.known, replies, f.actives)
    requires forall n :: n in world && n.name in replies ==> replies[n.name] == world[n]
    ensures AllTrue(Filled(f.known, replies, f.actives), world)
  {
    var peers := Filled(f.known, replies, f.actives);
    forall i | 0 <= i < |peers| ensures HasItsData(peers[i], world) {
      assert Nodes(peers)[i] == f.actives[i];
      if Hit(f.known, f.actives[i]) {
        HitIsTheNode(f, world, i);
      }
    }
  }

  lemma NextKeepsTrue(s: State, e: Event, world: map<Active, string>)
    requires StateTrue(s, world) && NamedOnce(world) && Honest(e, world)
    ensures StateTrue(Next(s, e, true), world)
  {
    if e.Listed? {
      KnownIsTrue(s.active, world);
      assert FetchTrue(Fetch(e.actives, Known(s.active)), world);
    } else if e.Fetched? && e.k < |s.fetches| {
      var f := s.fetches[e.k];
      assert FetchTrue(f, world);
      if AllRead(f.known, e.replies, f.actives) {
        FilledIsTrue(f, e.replies, world);
      }
    }
  }

  /**
   * Whatever joins, leaves and re-joins, and however listings overlap or fail: every peer kept or reported carries the
   * data that its node was created with.
   */
  lemma {:induction false} CachedDataIsTrue(s: State, events: seq<Event>, world: map<Active, string>)
    requires StateTrue(s, world) && NamedOnce(world) && AllHonest(events, world)
    ensures StateTrue(Run(s, events, true), world)
    decreases |events|
  {
    if events != [] {
      NextKeepsTrue(s, events[0], world);
      CachedDataIsTrue(Next(s, events[0], true), events[1..], world);
    }
  }

  /** Every node of the listing can be read when its data is fetched. */
  predicate Answers(s: State, e: Event) {
    e.Fetched? && e.k < |s.fetches| ==>
      forall i :: 0 <= i < |s.fetches[e.k].actives| ==> s.fetches[e.k].actives[i].name in e.replies
  }

  predicate AllAnswer(s: State, events: seq<Event>)
    decreases |events|
  {
    events == [] || (Answers(s, events[0]) && AllAnswer(Next(s, events[0], true), events[1..]))
  }

  lemma SameData(f: Fetch, replies: map<string, string>, world: map<Active, string>, i: nat)
    requires FetchTrue(f, world) && NamedOnce(world) && i < |f.actives|
    requires f.actives[i].name in replies && replies[f.actives[i].name] == world[f.actives[i]]
    ensures DataFor(f.known, replies, f.actives[i]) == DataFor(map[], replies, f.actives[i]) == Some(world[f.actives[i]])
  {
    if Hit(f.known, f.actives[i]) {
      HitIsTheNode(f, world, i);
    }
  }

  lemma SameFill(f: Fetch, replies: map<string, string>, world: map<Active, string>)
    requires FetchTrue(f, world) && NamedOnce(world)
    requires forall i :: 0 <= i < |f.actives| ==> f.actives[i].name in replies
    requires forall n :: n in world && n.name in replies ==> replies[n.name] == world[n]
    ensures AllRead(f.known, replies, f.actives) && AllRead(map[], replies, f.actives)
    ensures Filled(f.known, replies, f.actives) == Filled(map[], replies, f.actives)
  {
    forall i | 0 <= i < |f.actives|
      ensures DataFor(f.known, replies, f.actives[i]) == DataFor(map[], replies, f.actives[i])
      ensures DataFor(f.known, replies, f.actives[i]).Some?
    {
      SameData(f, replies, world, i);
    }
    var a, b := Filled(f.known, replies, f.actives), Filled(map[], replies, f.actives);
    forall i | 0 <= i < |f.actives| ensures a[i] == b[i] {
      assert Nodes(a)[i] == Nodes(b)[i];
    }
  }

  /** While the reads that are needed succeed, keeping data and reading every node every time go the same way. */
  lemma {:induction false} CacheIsTransparent(s: State, events: seq<Event>, world: map<Active, string>)
    requires StateTrue(s, world) && NamedOnce(world) && AllHonest(events, world) && AllAnswer(s, events)
    ensures Run(s, events, true) == Run(s, events, false)
    decreases |events|
  {
    if events != [] {
      var e := events[0];
      if e.Fetched? && e.k < |s.fetches| {
        assert Honest(e, world);
        assert FetchTrue(s.fetches[e.k], world);
        SameFill(s.fetches[e.k], e.replies, world);
      }
      NextKeepsTrue(s, e, world);
      CacheIsTransparent(Next(s, e, true), events[1..], world);
    }
  }

  // --- What comes to be the active list

  /** A listing whose data is all there becomes the active list. */
  lemma ListingArrives(s: State, k: nat, replies: map<string, string>)
    requires k < |s.fetches| && AllRead(s.fetches[k].known, replies, s.fetches[k].actives)
    ensures var s' := Next(s, Fetched(k, replies), true);
      Nodes(s'.active) == s.fetches[k].actives && s'.fetches == Without(s.fetches, k)
  {
  }

  lemma {:induction false} LastIsKnown(peers: seq<Peer>, i: nat)
    requires i < |peers| && forall j :: i < j < |peers| ==> peers[j].node.id != peers[i].node.id
    ensures peers[i].node.id in Known(peers) && Known(peers)[peers[i].node.id] == peers[i]
  {
    if i < |peers| - 1 {
      LastIsKnown(peers[..|peers| - 1], i);
    }
  }

  /** A peer of the active list that is listed again, with its number, is known then: it is not read again. */
  lemma ActiveIsKnown(s: State, names: seq<string>, actives: seq<Active>, i: nat)
    requires i < |s.active| && s.active[i].node.seqno.Some? && Kept(s.active)
    ensures var s' := Next(s, Listed(names, actives), true);
      |s'.fetches| == |s.fetches| + 1 && Hit(s'.fetches[|s.fetches|].known, s.active[i].node)
  {
    forall j | i < j < |s.active| ensures s.active[j].node.id != s.active[i].node.id {
      DistinctIds(s.active, i, j);
    }
    LastIsKnown(s.active, i);
  }

  lemma DistinctIds(peers: seq<Peer>, i: nat, j: nat)
    requires Kept(peers) && i < j < |peers|
    ensures peers[i].node.id != peers[j].node.id
  {
    var ids := PeerIds(peers);
    assert Less(ids[i], ids[j]);
    LessTotal(ids[i], ids[i]);
  }

  /** A peer without a number is read every time. */
  lemma UnnumberedIsRead(f: Fetch, replies: map<string, string>, i: nat)
    requires i < |f.actives| && f.actives[i].seqno.None? && AllRead(f.known, replies, f.actives)
    ensures f.actives[i].name in replies
  {
    assert DataFor(f.known, replies, f.actives[i]).Some?;
  }

  /** What is known needs no reply: a peer that has left since it was listed does no harm. */
  lemma KnownNeedsNoReply(f: Fetch, replies: map<string, string>)
    requires forall i :: 0 <= i < |f.actives| ==> Hit(f.known, f.actives[i]) || f.actives[i].name in replies
    ensures AllRead(f.known, replies, f.actives)
  {
  }

  /**
   * Once a listing of the directory has come and its data is read, the ids of the active list are exactly those of the
   * listing; and if the manager was set up, they are what was reported last.
   */
  lemma ActiveFollowsTheListing(s: State, names: seq<string>, actives: seq<Active>, replies: map<string, string>, id: string)
    requires Told(s) && IsUniqueList(ParseAll(names), actives)
    requires forall i :: 0 <= i < |actives| ==> actives[i].name in replies
    ensures var s1 := Next(s, Listed(names, actives), true);
      var s2 := Next(s1, Fetched(|s.fetches|, replies), true);
      && (id in PeerIds(s2.active) <==> HasId(ParseAll(names), id))
      && (s.inited ==> s2.emitted != [] && PeerIds(s2.emitted[|s2.emitted| - 1]) == Ids(actives))
  {
    var s1 := Next(s, Listed(names, actives), true);
    assert s1.fetches[|s.fetches|] == Fetch(actives, Known(s.active));
    NextKeepsTold(s, Listed(names, actives), true);
    NextKeepsTold(s1, Fetched(|s.fetches|, replies), true);
    ListingArrives(s1, |s.fetches|, replies);
    UniqueListHasTheIds(ParseAll(names), actives, id);
  }

  // --- What the state machine is told

  predicate Kept(peers: seq<Peer>) {
    StrictlySorted(PeerIds(peers))
  }

  /** Some id is in one list and not in the other. */
  ghost predicate DifferentSets(a: seq<Peer>, b: seq<Peer>) {
    exists id :: (id in PeerIds(a)) != (id in PeerIds(b))
  }

  ghost predicate Told(s: State) {
    && (s.inited <==> s.emitted != [])
    && (s.inited ==> PeerIds(s.emitted[|s.emitted| - 1]) == PeerIds(s.active))
    && Kept(s.active)
    && (forall i :: 0 <= i < |s.emitted| ==> Kept(s.emitted[i]))
    && (forall i :: 0 <= i < |s.fetches| ==> StrictlySorted(Ids(s.fetches[i].actives)))
    && (forall i, j :: 0 <= i && j == i + 1 < |s.emitted| ==> DifferentSets(s.emitted[i], s.emitted[j]))
  }

  lemma DifferentIdsAreDifferentSets(a: seq<Peer>, b: seq<Peer>)
    requires Kept(a) && Kept(b) && PeerIds(a) != PeerIds(b)
    ensures DifferentSets(a, b)
  {
    EntryByEntryDecidesSets(Nodes(a), Nodes(b));
  }

  lemma ArrivedKeepsTold(s: State, peers: seq<Peer>)
    requires Told(s) && Kept(peers)
    ensures Told(Arrived(s, peers))
  {
    if s.inited && PeerIds(s.active) != PeerIds(peers) {
      DifferentIdsAreDifferentSets(s.emitted[|s.emitted| - 1], peers);
    }
  }

  lemma NextKeepsTold(s: State, e: Event, caching: bool)
    requires Told(s) && WellFormed(e)
    ensures Told(Next(s, e, caching))
  {
    if e.Fetched? && e.k < |s.fetches| {
      var f := s.fetches[e.k];
      var known := if caching then f.known else map[];
      var s1 := s.(fetches := Without(s.fetches, e.k));
      if AllRead(known, e.replies, f.actives) {
        ArrivedKeepsTold(s1, Filled(known, e.replies, f.actives));
      }
    }
  }

  /**
   * From 'init' on, what was last reported has exactly the ids of the active list, and a list is reported only when
   * its set of ids is not that of the one reported before it.
   */
  lemma {:induction false} ReportsFollowTheIds(s: State, events: seq<Event>, caching: bool)
    requires Told(s) && AllWellFormed(events)
    ensures Told(Run(s, events, caching))
    decreases |events|
  {
    if events != [] {
      assert WellFormed(events[0]);
      NextKeepsTold(s, events[0], caching);
      ReportsFollowTheIds(Next(s, events[0], caching), events[1..], caching);
    }
  }

  /** Once the session is set up, the state machine has been told a list, and stays so. */
  lemma {:induction false} SetUpIsReported(s: State, events: seq<Event>, caching: bool)
    requires s.inited || SetUp in events
    ensures Run(s, events, caching).inited
    decreases |events|
  {
    if events != [] {
      SetUpIsReported(Next(s, events[0], caching), events[1..], caching);
    }
  }

  /** The set of ids that the state machine knows of changes just when the active list's does. */
  lemma ReportedJustWhenChanged(events: seq<Event>, e: Event)
    requires AllWellFormed(events) && WellFormed(e)
    requires Run(INITIAL, events, true).inited
    ensures var s := Run(INITIAL, events, true);
      var s' := Next(s, e, true);
      |s'.emitted| == |s.emitted| + (if DifferentSets(s.active, s'.active) then 1 else 0)
  {
    ReportsFollowTheIds(INITIAL, events, true);
    var s := Run(INITIAL, events, true);
    NextKeepsTold(s, e, true);
    if PeerIds(s.active) != PeerIds(Next(s, e, true).active) {
      DifferentIdsAreDifferentSets(s.active, Next(s, e, true).active);
    }
  }

  // --- The manager

  class ZookeeperMgr {
    var active: seq<Peer>
    var inited: bool
    var clusterState: Option<ClusterStates.ClusterState>
    var clusterStateVersion: nat
    var emitted: seq<seq<Peer>>
    var fetches: seq<Fetch>

    ghost function View(): State
      reads this
    {
      State(active, inited, emitted, fetches)
    }

    /** The state and version as the coordination model has them. */
    ghost function Cache(): Option<Zk.Versioned>
      reads this
    {
      if clusterState.Some? then Some(Zk.Versioned(clusterState.value, clusterStateVersion)) else None
    }

    /** What was reported last has the ids of the active list, and no report repeats the ids of the one before. */
    ghost predicate Valid()
      reads this
    {
      Told(View())
    }

    constructor ()
      ensures Valid() && View() == INITIAL && Cache() == None
    {
      active, inited, emitted, fetches := [], false, [], [];
      clusterState, clusterStateVersion := None, 0;
    }

    /** `handleActive` until its requests are sent. */
    method OnList(names: seq<string>) returns (actives: seq<Active>)
      requires Valid()
      modifies this`fetches
      ensures Valid() && WellFormed(Listed(names, actives))
      ensures View() == Next(old(View()), Listed(names, actives), true)
    {
      actives := ParseAndUniqueActives(names);
      NextKeepsTold(View(), Listed(names, actives), true);
      var known := KnownActives();
      fetches := fetches + [Fetch(actives, known)];
    }

    /** The active list by id. */
    method KnownActives() returns (known: map<string, Peer>)
      ensures known == Known(active)
    {
      known := map[];
      for i := 0 to |active|
        invariant known == Known(active[..i])
      {
        assert active[..i + 1][..i] == active[..i];
        known := known[active[i].node.id := active[i]];
      }
      assert active[..|active|] == active;
    }

    /** `handleActive` once all answers are there. */
    method OnData(k: nat, replies: map<string, string>)
      requires Valid() && k < |fetches|
      modifies this`active, this`emitted, this`fetches
      ensures Valid() && View() == Next(old(View()), Fetched(k, replies), true)
      ensures AllRead(old(fetches[k].known), replies, old(fetches[k].actives)) ==> Nodes(active) == old(fetches[k].actives)
    {
      NextKeepsTold(View(), Fetched(k, replies), true);
      var f := fetches[k];
      fetches := fetches[..k] + fetches[k + 1..];
      var peers: seq<Peer> := [];
      for i := 0 to |f.actives|
        invariant |peers| == i
        invariant forall j :: 0 <= j < i ==> DataFor(f.known, replies, f.actives[j]) == Some(peers[j].data)
        invariant forall j :: 0 <= j < i ==> peers[j].node == f.actives[j]
      {
        var n := f.actives[i];
        if Hit(f.known, n) {
          peers := peers + [Peer(n, f.known[n.id].data)];
        } else if n.name in replies {
          peers := peers + [Peer(n, replies[n.name])];
        } else {
          assert DataFor(f.known, replies, f.actives[i]).None?;
          return;
        }
      }
      assert peers == Filled(f.known, replies, f.actives);
      var debounce := IdListsEqual(PeerIds(active), PeerIds(peers));
      active := peers;
      if inited && !debounce {
        emitted := emitted + [peers];
      }
    }

    /**
     * `emitInit`: the first time, the active list is reported as it is; however often a session is set up again, nothing
     * is reported then, since what was reported last has the same ids still.
     */
    method EmitInit()
      requires Valid()
      modifies this`inited, this`emitted
      ensures Valid() && inited
      ensures emitted != [] && PeerIds(emitted[|emitted| - 1]) == PeerIds(active)
      ensures |emitted| == |old(emitted)| + (if old(emitted) == [] then 1 else 0)
      ensures View() == Next(old(View()), SetUp, true)
    {
      if !inited {
        inited := true;
        emitted := emitted + [active];
      }
    }

    /** `handleClusterState`; the result says whether 'clusterStateChange' is reported. */
    method HandleClusterState(found: Zk.Versioned) returns (reported: bool)
      modifies this`clusterState, this`clusterStateVersion
      ensures forall w: Zk.Writer :: w.cache == old(Cache()) ==> Cache() == Zk.Received(w, Zk.ReadReply(Some(found))).cache
      ensures reported == inited
    {
      clusterState, clusterStateVersion := Some(found.state), found.version;
      reported := inited;
    }

    /** `putClusterState`: create the state, or set it at the version last seen. */
    method PutClusterState(state: ClusterStates.ClusterState) returns (r: Zk.Request)
      ensures Zk.CommitRequest(Cache(), ClusterStates.Replace(state)) == Some(r)
      ensures r == Zk.Commit(ClusterStates.Replace(state), state, Cache())
    {
      var basis := if clusterState.Some? then Some(Zk.Versioned(clusterState.value, clusterStateVersion)) else None;
      r := Zk.Commit(ClusterStates.Replace(state), state, basis);
    }

    /** `onPut`: a transaction that was refused leaves the cache as it was. */
    method OnPut(state: ClusterStates.ClusterState, version: Option<nat>) returns (ok: bool)
      modifies this`clusterState, this`clusterStateVersion
      ensures ok == version.Some?
      ensures forall w: Zk.Writer :: w.kind.Manager? && w.cache == old(Cache()) ==>
        Cache() == Zk.Received(w, if ok then Zk.Committed(Zk.Versioned(state, version.value)) else Zk.Rejected).cache
    {
      ok := version.Some?;
      if ok {
        clusterState, clusterStateVersion := Some(state), version.value;
      }
    }
  }
}
