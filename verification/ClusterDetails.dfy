/** `ManateeClusterDetails` of lib/adm.js: the problems that `manatee-adm verify` reports. */
module ClusterDetails {
  import opened Wrappers
  import opened Sequences

  /** What a peer says about its connection to the next peer downstream. */
  datatype Repl = Repl(clientAddr: string, state: string, syncState: string)

  datatype PeerStatus = PeerStatus(name: string, ip: string, repl: Option<Repl>, pgError: bool)

  datatype Problem =
    | CannotQueryPrimary | CannotQuerySync
    | PeersInSingleton(count: nat) | HasDeposed | NoAsyncs
    | NotConnected(name: string)
    | WrongDownstream(name: string, expected: string, found: string)
    | NotStreaming(name: string, state: string)
    | WrongKind(name: string, kind: string, found: string)

  datatype Details = Details(
    peers: map<string, PeerStatus>,
    primary: string,
    sync: Option<string>,
    asyncs: seq<string>,
    deposed: seq<string>,
    singleton: bool)

  /** Every peer that the cluster state names has an entry. */
  predicate Known(d: Details) {
    && d.primary in d.peers
    && (d.sync.Some? ==> d.sync.value in d.peers)
    && (forall a :: a in d.asyncs ==> a in d.peers)
  }

  function If(c: bool, p: Problem): seq<Problem> {
    if c then [p] else []
  }

  /** `loadReplErrors` */
  function ReplProblems(d: Details, peer: PeerStatus, downstream: Option<string>, kind: string): seq<Problem>
    requires downstream.Some? ==> downstream.value in d.peers
  {
    if downstream.None? then []
    else if peer.repl.None? then [NotConnected(peer.name)]
    else
      var ip := d.peers[downstream.value].ip;
      var first := If(peer.repl.value.clientAddr != ip, WrongDownstream(peer.name, ip, peer.repl.value.clientAddr))
                 + If(peer.repl.value.state != "streaming", NotStreaming(peer.name, peer.repl.value.state));
      if first != [] then first
      else If(peer.repl.value.syncState != kind, WrongKind(peer.name, kind, peer.repl.value.syncState))
  }

  /** The problems of one async's connection to the next. */
  function AsyncProblems(d: Details, i: nat): seq<Problem>
    requires Known(d) && i < |d.asyncs|
  {
    ReplProblems(d, d.peers[d.asyncs[i]], if i + 1 < |d.asyncs| then Some(d.asyncs[i + 1]) else None, "async")
  }

  function AllAsyncProblems(d: Details): (parts: seq<seq<Problem>>)
    requires Known(d)
    ensures |parts| == |d.asyncs| && forall i :: 0 <= i < |parts| ==> parts[i] == AsyncProblems(d, i)
  {
    seq(|d.asyncs|, i requires 0 <= i < |d.asyncs| => AsyncProblems(d, i))
  }

  function SyncErrors(d: Details): seq<Problem>
    requires Known(d) && d.sync.Some?
  {
    if d.peers[d.sync.value].pgError then [CannotQuerySync]
    else ReplProblems(d, d.peers[d.primary], d.sync, "sync")
  }

  function Errors(d: Details): seq<Problem>
    requires Known(d) && (d.singleton || d.sync.Some?)
  {
    If(d.peers[d.primary].pgError, CannotQueryPrimary) + if d.singleton then [] else SyncErrors(d)
  }

  function TopologyWarnings(d: Details): seq<Problem> {
    If(d.deposed != [], HasDeposed) + If(d.asyncs == [], NoAsyncs)
  }

  function Warnings(d: Details): seq<Problem>
    requires Known(d) && (d.singleton || d.sync.Some?)
  {
    if d.singleton then If(|d.peers| > 1, PeersInSingleton(|d.peers|))
    else TopologyWarnings(d) + ChainProblems(d)
  }

  /** Without the sync nothing can be checked from there on. */
  function ChainProblems(d: Details): seq<Problem>
    requires Known(d) && d.sync.Some?
  {
    if d.peers[d.sync.value].pgError then []
    else
      ReplProblems(d, d.peers[d.sync.value], if d.asyncs == [] then None else Some(d.asyncs[0]), "async")
      + Flatten(AllAsyncProblems(d))
  }

  lemma NothingMore(a: seq<Problem>, b: seq<Problem>)
    requires b == []
    ensures a + b == a
  {
  }

  // --- Verification is exact

  /** The peer has a streaming connection of this kind to that address. */
  predicate StreamsTo(peer: PeerStatus, ip: string, kind: string) {
    peer.repl == Some(Repl(ip, "streaming", kind))
  }

  lemma ReplProblemsAreExact(d: Details, peer: PeerStatus, downstream: string, kind: string)
    requires downstream in d.peers
    ensures ReplProblems(d, peer, Some(downstream), kind) == [] <==> StreamsTo(peer, d.peers[downstream].ip, kind)
  {
  }

  /** The replication chain, from the primary to the last async. */
  function Chain(d: Details): seq<string>
    requires d.sync.Some?
  {
    [d.primary, d.sync.value] + d.asyncs
  }

  /** Each peer of the chain streams to the next: as a sync replica at the head, as async ones after. */
  predicate ChainStreams(d: Details)
    requires Known(d) && d.sync.Some?
  {
    forall i {:trigger LinkStreams(d, i)} :: 0 <= i < |Chain(d)| - 1 ==> LinkStreams(d, i)
  }

  predicate LinkStreams(d: Details, i: nat)
    requires Known(d) && d.sync.Some? && i < |Chain(d)| - 1
  {
    StreamsTo(d.peers[Chain(d)[i]], d.peers[Chain(d)[i + 1]].ip, if i == 0 then "sync" else "async")
  }

  /** The async streams to the one after it. */
  predicate AsyncStreams(d: Details, i: nat)
    requires Known(d) && i < |d.asyncs| - 1
  {
    StreamsTo(d.peers[d.asyncs[i]], d.peers[d.asyncs[i + 1]].ip, "async")
  }

  predicate AsyncsStream(d: Details, n: nat)
    requires Known(d)
  {
    forall i {:trigger AsyncStreams(d, i)} :: n <= i < |d.asyncs| - 1 ==> AsyncStreams(d, i)
  }

  lemma BothEmpty(a: seq<Problem>, b: seq<Problem>)
    ensures a + b == [] <==> a == [] && b == []
  {
    assert |a + b| == |a| + |b|;
  }

  lemma OneAsyncIsExact(d: Details, i: nat)
    requires Known(d) && i < |d.asyncs|
    ensures AsyncProblems(d, i) == [] <==> (i < |d.asyncs| - 1 ==> AsyncStreams(d, i))
  {
    if i < |d.asyncs| - 1 {
      ReplProblemsAreExact(d, d.peers[d.asyncs[i]], d.asyncs[i + 1], "async");
    }
  }

  /** The loop over the asyncs reports nothing exactly if each streams to the next. */
  lemma AsyncProblemsAreExact(d: Details)
    requires Known(d)
    ensures Flatten(AllAsyncProblems(d)) == [] <==> AsyncsStream(d, 0)
  {
    var parts := AllAsyncProblems(d);
    FlattenIsEmpty(parts);
    forall i | 0 <= i < |parts| ensures parts[i] == [] <==> (i < |d.asyncs| - 1 ==> AsyncStreams(d, i)) {
      OneAsyncIsExact(d, i);
    }
    if AsyncsStream(d, 0) {
      forall i | 0 <= i < |parts| ensures parts[i] == [] {
        assert i < |d.asyncs| - 1 ==> AsyncStreams(d, i);
      }
    }
  }

  /** From the third peer on the chain consists of the asyncs. */
  lemma ChainEnds(d: Details)
    requires Known(d) && d.sync.Some?
    ensures (forall i {:trigger LinkStreams(d, i)} :: 2 <= i < |Chain(d)| - 1 ==> LinkStreams(d, i)) <==> AsyncsStream(d, 0)
  {
    if AsyncsStream(d, 0) {
      forall i {:trigger LinkStreams(d, i)} | 2 <= i < |Chain(d)| - 1 ensures LinkStreams(d, i) {
        assert AsyncStreams(d, i - 2);
      }
    } else {
      var i :| 0 <= i < |d.asyncs| - 1 && !AsyncStreams(d, i);
      assert !LinkStreams(d, i + 2);
    }
  }

  /**
   * In normal mode nothing is reported exactly when primary and sync can be queried, no peer is deposed, there is an
   * async, and the whole chain streams.
   */
  lemma VerificationIsExact(d: Details)
    requires Known(d) && !d.singleton && d.sync.Some?
    ensures Errors(d) == [] && Warnings(d) == [] <==>
      && !d.peers[d.primary].pgError && !d.peers[d.sync.value].pgError
      && d.deposed == [] && d.asyncs != []
      && ChainStreams(d)
  {
    ErrorsAreExact(d);
    if !d.peers[d.sync.value].pgError {
      WarningsAreExact(d);
    }
    if d.asyncs != [] {
      ChainInParts(d);
    }
  }

  lemma ErrorsAreExact(d: Details)
    requires Known(d) && !d.singleton && d.sync.Some?
    ensures Errors(d) == [] <==>
      && !d.peers[d.primary].pgError && !d.peers[d.sync.value].pgError
      && StreamsTo(d.peers[d.primary], d.peers[d.sync.value].ip, "sync")
  {
    ReplProblemsAreExact(d, d.peers[d.primary], d.sync.value, "sync");
    BothEmpty(If(d.peers[d.primary].pgError, CannotQueryPrimary), SyncErrors(d));
  }

  lemma WarningsAreExact(d: Details)
    requires Known(d) && !d.singleton && d.sync.Some? && !d.peers[d.sync.value].pgError
    ensures Warnings(d) == [] <==>
      && d.deposed == [] && d.asyncs != []
      && StreamsTo(d.peers[d.sync.value], d.peers[d.asyncs[0]].ip, "async") && AsyncsStream(d, 0)
  {
    AsyncProblemsAreExact(d);
    BothEmpty(If(d.deposed != [], HasDeposed), If(d.asyncs == [], NoAsyncs));
    BothEmpty(TopologyWarnings(d), ChainProblems(d));
    if d.asyncs != [] {
      var first := ReplProblems(d, d.peers[d.sync.value], Some(d.asyncs[0]), "async");
      ReplProblemsAreExact(d, d.peers[d.sync.value], d.asyncs[0], "async");
      BothEmpty(first, Flatten(AllAsyncProblems(d)));
      assert ChainProblems(d) == first + Flatten(AllAsyncProblems(d));
    }
  }

  /** The head of the chain, and the asyncs. */
  lemma ChainInParts(d: Details)
    requires Known(d) && d.sync.Some? && d.asyncs != []
    ensures ChainStreams(d) <==>
      && StreamsTo(d.peers[d.primary], d.peers[d.sync.value].ip, "sync")
      && StreamsTo(d.peers[d.sync.value], d.peers[d.asyncs[0]].ip, "async") && AsyncsStream(d, 0)
  {
    ChainEnds(d);
    assert Chain(d)[0] == d.primary && Chain(d)[1] == d.sync.value && Chain(d)[2] == d.asyncs[0];
    assert LinkStreams(d, 0) <==> StreamsTo(d.peers[d.primary], d.peers[d.sync.value].ip, "sync");
    assert LinkStreams(d, 1) <==> StreamsTo(d.peers[d.sync.value], d.peers[d.asyncs[0]].ip, "async");
  }

  /** In singleton mode nothing is reported exactly when the primary can be queried and there is no other peer. */
  lemma SingletonVerificationIsExact(d: Details)
    requires Known(d) && d.singleton
    ensures Errors(d) == [] && Warnings(d) == [] <==> !d.peers[d.primary].pgError && |d.peers| == 1
    ensures |d.peers| > 1 ==> Warnings(d) == [PeersInSingleton(|d.peers|)]
  {
    assert d.primary in d.peers.Keys;
    assert |d.peers.Keys| == |d.peers| >= 1;
  }

  /** Which problems of a link are reported. */
  lemma LinkProblemsAre(d: Details, peer: PeerStatus, downstream: string, kind: string, p: Problem)
    requires downstream in d.peers
    ensures var ip := d.peers[downstream].ip;
      p in ReplProblems(d, peer, Some(downstream), kind) <==>
        if peer.repl.None? then p == NotConnected(peer.name)
        else
          var r := peer.repl.value;
          || (r.clientAddr != ip && p == WrongDownstream(peer.name, ip, r.clientAddr))
          || (r.state != "streaming" && p == NotStreaming(peer.name, r.state))
          || (r.clientAddr == ip && r.state == "streaming" && r.syncState != kind && p == WrongKind(peer.name, kind, r.syncState))
  {
  }

  /** Which problems of the primary and the sync are reported: with the sync out of reach, not that of their link. */
  lemma ErrorsAre(d: Details, p: Problem)
    requires Known(d) && !d.singleton && d.sync.Some?
    ensures p in Errors(d) <==>
      || (d.peers[d.primary].pgError && p == CannotQueryPrimary)
      || (d.peers[d.sync.value].pgError && p == CannotQuerySync)
      || (!d.peers[d.sync.value].pgError && p in ReplProblems(d, d.peers[d.primary], d.sync, "sync"))
  {
  }

  /** Which warnings are given. */
  lemma WarningsAre(d: Details, p: Problem)
    requires Known(d) && !d.singleton && d.sync.Some?
    ensures var s := d.peers[d.sync.value];
      p in Warnings(d) <==>
        || (d.deposed != [] && p == HasDeposed)
        || (d.asyncs == [] && p == NoAsyncs)
        || (!s.pgError && d.asyncs != [] && p in ReplProblems(d, s, Some(d.asyncs[0]), "async"))
        || (!s.pgError && exists i :: 0 <= i < |d.asyncs| && p in AsyncProblems(d, i))
  {
    FlattenHas(AllAsyncProblems(d), p);
    assert (exists i :: 0 <= i < |d.asyncs| && p in AllAsyncProblems(d)[i]) <==>
      exists i :: 0 <= i < |d.asyncs| && p in AsyncProblems(d, i);
  }

  /** The errors, unlike the warnings, depend on nothing but the primary and the sync. */
  lemma ErrorsAreAboutPrimaryAndSync(d: Details, d': Details)
    requires Known(d) && (d.singleton || d.sync.Some?) && Known(d') && (d'.singleton || d'.sync.Some?)
    requires d.singleton == d'.singleton && d.primary == d'.primary && d.sync == d'.sync
    requires d.peers[d.primary] == d'.peers[d.primary]
    requires d.sync.Some? ==> d.peers[d.sync.value] == d'.peers[d.sync.value]
    ensures Errors(d) == Errors(d')
  {
  }

  // --- The object

  datatype PeerInfo = PeerInfo(id: string, status: PeerStatus)

  /** The peers by id; of two entries for one id the later one counts. */
  function Loaded(infos: seq<PeerInfo>): map<string, PeerStatus> {
    if infos == [] then map[]
    else Loaded(infos[..|infos| - 1])[infos[|infos| - 1].id := infos[|infos| - 1].status]
  }

  function IdsOf(infos: seq<PeerInfo>): (ids: seq<string>)
    ensures |ids| == |infos| && forall i :: 0 <= i < |ids| ==> ids[i] == infos[i].id
  {
    seq(|infos|, i requires 0 <= i < |infos| => infos[i].id)
  }

  lemma {:induction false} LoadedKnows(infos: seq<PeerInfo>, i: nat)
    requires i < |infos|
    ensures infos[i].id in Loaded(infos)
  {
    if i < |infos| - 1 {
      LoadedKnows(infos[..|infos| - 1], i);
    }
  }

  function AllInfos(primary: PeerInfo, sync: Option<PeerInfo>, asyncs: seq<PeerInfo>, deposed: seq<PeerInfo>): seq<PeerInfo> {
    [primary] + (if sync.Some? then [sync.value] else []) + asyncs + deposed
  }

  /** Whoever is named is loaded. */
  lemma AllAreKnown(primary: PeerInfo, sync: Option<PeerInfo>, asyncs: seq<PeerInfo>, deposed: seq<PeerInfo>, singleton: bool)
    ensures Known(Details(Loaded(AllInfos(primary, sync, asyncs, deposed)), primary.id,
                          if sync.Some? then Some(sync.value.id) else None, IdsOf(asyncs), IdsOf(deposed), singleton))
  {
    var all := AllInfos(primary, sync, asyncs, deposed);
    var n := if sync.Some? then 2 else 1;
    LoadedKnows(all, 0);
    if sync.Some? {
      LoadedKnows(all, 1);
    }
    forall i | 0 <= i < |asyncs| ensures asyncs[i].id in Loaded(all) {
      LoadedKnows(all, n + i);
    }
  }

  class ManateeClusterDetails {
    const primary: string
    const sync: Option<string>
    var asyncs: seq<string>
    var deposed: seq<string>
    const singleton: bool
    var peers: map<string, PeerStatus>
    var errors: seq<Problem>
    var warnings: seq<Problem>

    function View(): Details
      reads this
    {
      Details(peers, primary, sync, asyncs, deposed, singleton)
    }

    constructor (primary: PeerInfo, sync: Option<PeerInfo>, asyncs: seq<PeerInfo>, deposed: seq<PeerInfo>, singleton: bool)
      ensures errors == [] && warnings == [] && Known(View())
      ensures View() == Details(Loaded(AllInfos(primary, sync, asyncs, deposed)), primary.id,
                                if sync.Some? then Some(sync.value.id) else None, IdsOf(asyncs), IdsOf(deposed), singleton)
    {
      this.primary, this.singleton := primary.id, singleton;
      this.sync := if sync.Some? then Some(sync.value.id) else None;
      this.asyncs, this.deposed := IdsOf(asyncs), IdsOf(deposed);
      peers, errors, warnings := map[], [], [];
      new;
      LoadPeers([], [primary]);
      if sync.Some? {
        LoadPeers([primary], [sync.value]);
      }
      ghost var first := [primary] + if sync.Some? then [sync.value] else [];
      LoadPeers(first, asyncs);
      LoadPeers(first + asyncs, deposed);
      AllAreKnown(primary, sync, asyncs, deposed, singleton);
    }

    method LoadPeer(peer: PeerInfo)
      modifies `peers
      ensures peers == old(peers)[peer.id := peer.status]
    {
      peers := peers[peer.id := peer.status];
    }

    method LoadPeers(ghost before: seq<PeerInfo>, infos: seq<PeerInfo>)
      requires peers == Loaded(before)
      modifies `peers
      ensures peers == Loaded(before + infos)
    {
      assert before + infos[..0] == before;
      for i := 0 to |infos|
        invariant peers == Loaded(before + infos[..i])
      {
        assert (before + infos[..i + 1])[..|before| + i] == before + infos[..i];
        LoadPeer(infos[i]);
      }
      assert infos[..|infos|] == infos;
    }

    /** In normal mode without a sync, null is dereferenced. */
    method LoadErrors() returns (threw: bool)
      requires Known(View()) && errors == [] && warnings == []
      modifies `errors, `warnings
      ensures threw <==> !singleton && sync.None?
      ensures !threw ==> errors == Errors(View()) && warnings == Warnings(View())
    {
      var p := peers[primary];
      if p.pgError {
        errors := errors + [CannotQueryPrimary];
      }
      if singleton {
        if |peers| > 1 {
          warnings := warnings + [PeersInSingleton(|peers|)];
        }
        return false;
      }
      if sync.None? {
        return true;
      }
      threw := false;
      LoadNormalErrors(p);
    }

    /** What is checked in normal mode only. */
    method LoadNormalErrors(p: PeerStatus)
      requires Known(View()) && sync.Some? && p == peers[primary] && warnings == []
      modifies `errors, `warnings
      ensures errors == old(errors) + SyncErrors(View()) && warnings == TopologyWarnings(View()) + ChainProblems(View())
    {
      var s := peers[sync.value];
      if s.pgError {
        errors := errors + [CannotQuerySync];
      }
      LoadTopologyWarnings();
      if !s.pgError {
        LoadReplErrors(p, sync, "sync", true);
        LoadChainErrors(s);
      }
      NothingMore(TopologyWarnings(View()), []);
    }

    method LoadTopologyWarnings()
      requires warnings == []
      modifies `warnings
      ensures warnings == TopologyWarnings(View())
    {
      if |deposed| > 0 {
        warnings := warnings + [HasDeposed];
      }
      if |asyncs| == 0 {
        warnings := warnings + [NoAsyncs];
      }
    }

    method LoadChainErrors(s: PeerStatus)
      requires Known(View()) && sync.Some? && s == peers[sync.value] && !s.pgError
      modifies `errors, `warnings
      ensures errors == old(errors) && warnings == old(warnings) + ChainProblems(View())
    {
      LoadReplErrors(s, if |asyncs| == 0 then None else Some(asyncs[0]), "async", false);
      ghost var before := warnings;
      LoadAsyncErrors();
      SumOfThree(old(warnings), before[|old(warnings)|..], Flatten(AllAsyncProblems(View())));
    }

    /** The loop over the asyncs. */
    method LoadAsyncErrors()
      requires Known(View())
      modifies `errors, `warnings
      ensures errors == old(errors) && warnings == old(warnings) + Flatten(AllAsyncProblems(View()))
    {
      ghost var d, parts, before := View(), AllAsyncProblems(View()), warnings;
      for i := 0 to |asyncs|
        invariant View() == d && errors == old(errors)
        invariant warnings == before + Flatten(parts[..i])
      {
        LoadReplErrors(peers[asyncs[i]], if i < |asyncs| - 1 then Some(asyncs[i + 1]) else None, "async", false);
        FlattenOneMore(parts, i);
        SumOfThree(before, Flatten(parts[..i]), parts[i]);
      }
      assert parts[..|asyncs|] == parts;
    }

    /** Problems are pushed onto the list of errors, or of warnings. */
    method LoadReplErrors(peer: PeerStatus, downstream: Option<string>, kind: string, asErrors: bool)
      requires downstream.Some? ==> downstream.value in peers
      modifies `errors, `warnings
      ensures errors == old(errors) + (if asErrors then ReplProblems(View(), peer, downstream, kind) else [])
      ensures warnings == old(warnings) + (if asErrors then [] else ReplProblems(View(), peer, downstream, kind))
    {
      var found: seq<Problem> := [];
      if downstream.Some? {
        var ip := peers[downstream.value].ip;
        if peer.repl.None? {
          found := found + [NotConnected(peer.name)];
        } else {
          if peer.repl.value.clientAddr != ip {
            found := found + [WrongDownstream(peer.name, ip, peer.repl.value.clientAddr)];
          }
          if peer.repl.value.state != "streaming" {
            found := found + [NotStreaming(peer.name, peer.repl.value.state)];
          }
          if found == [] && peer.repl.value.syncState != kind {
            found := found + [WrongKind(peer.name, kind, peer.repl.value.syncState)];
          }
        }
      }
      if asErrors {
        errors := errors + found;
      } else {
        warnings := warnings + found;
      }
    }
  }
}
