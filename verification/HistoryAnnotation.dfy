/** `annotateHistoryNode` of lib/adm.js, and what a history without an error comment guarantees as a whole. */
module HistoryAnnotation {
  import opened Wrappers
  import opened ClusterStates
  import opened Sequences

  /** An event of Manatee 1.0, or a cluster state. */
  datatype Entry = OldEvent | StateEntry(state: ClusterState)

  datatype Change =
    | Frozen(reason: string) | Unfrozen
    | AsyncAdded(zoneId: string) | AsyncRemoved(zoneId: string)
    | NowDeposed(zoneId: string) | NoLongerDeposed(zoneId: string)

  datatype Comment =
    | OldEventComment | Setup(singleton: bool) | FollowUp
    | LeftSingleton
    | TookOver(zoneId: string, from: string)
    | SyncAdded(zoneId: string)
    | NewSync(primary: string, was: string, now: string)
    | Changes(changes: seq<Change>)
    // comments that begin with 'error:'
    | GenerationWentBack | BecameSingleton | NewPrimarySameGeneration | NewPrimaryNotSync
    | GenerationWithoutReason | SyncSameGeneration
    | Throws                                         // a null sync is dereferenced

  predicate IsError(c: Comment) {
    c.GenerationWentBack? || c.BecameSingleton? || c.NewPrimarySameGeneration? || c.NewPrimaryNotSync?
    || c.GenerationWithoutReason? || c.SyncSameGeneration? || c.Throws?
  }

  predicate Singleton(s: ClusterState) {
    s.oneNodeWriteMode == Some(true)
  }

  function SyncZone(s: ClusterState): Option<string> {
    if s.sync.None? then None else Some(s.sync.value.zoneId)
  }

  /** The zones of the peers, each once, in the order of their first appearance. */
  function Zones(peers: seq<Peer>): seq<string> {
    if peers == [] then []
    else
      var before := Zones(peers[..|peers| - 1]);
      var zone := peers[|peers| - 1].zoneId;
      if zone in before then before else before + [zone]
  }

  /** The zones of `peers` that are not among those of `others`, each as a change. */
  function Missing(zones: seq<string>, others: seq<string>, change: string -> Change): seq<Change> {
    if zones == [] then []
    else (if zones[0] in others then [] else [change(zones[0])]) + Missing(zones[1..], others, change)
  }

  function FreezeChange(n: ClusterState, l: ClusterState): seq<Change> {
    if n.freeze.Some? && l.freeze.None? then [Frozen(n.freeze.value.reason)]
    else if n.freeze.None? && l.freeze.Some? then [Unfrozen]
    else []
  }

  /** Who came to be among the peers, then who is no longer. */
  function PeerChanges(now: seq<Peer>, before: seq<Peer>, came: string -> Change, left: string -> Change): seq<Change> {
    Missing(Zones(now), Zones(before), came) + Missing(Zones(before), Zones(now), left)
  }

  function AllChanges(n: ClusterState, l: ClusterState): seq<Change> {
    FreezeChange(n, l)
    + PeerChanges(n.asyncs, l.asyncs, z => AsyncAdded(z), z => AsyncRemoved(z))
    + PeerChanges(Deposed(n), Deposed(l), z => NowDeposed(z), z => NoLongerDeposed(z))
  }

  /** The comment on state `n`, whose predecessor is `l`. */
  function AnnotateStates(n: ClusterState, l: ClusterState): Comment {
    if n.generation < l.generation then GenerationWentBack
    else if !Singleton(l) && Singleton(n) then BecameSingleton
    else if Singleton(l) && !Singleton(n) then LeftSingleton
    else if n.primary.zoneId != l.primary.zoneId then
      if n.generation == l.generation then NewPrimarySameGeneration
      else if l.sync.None? || n.primary.zoneId != l.sync.value.zoneId then NewPrimaryNotSync
      else TookOver(n.primary.zoneId, l.primary.zoneId)
    else if n.generation > l.generation then
      if l.sync.None? && !Singleton(l) then
        if n.sync.None? then Throws else SyncAdded(n.sync.value.zoneId)
      else if n.sync.None? || l.sync.None? then Throws
      else if n.sync.value.zoneId == l.sync.value.zoneId then GenerationWithoutReason
      else NewSync(n.primary.zoneId, l.sync.value.zoneId, n.sync.value.zoneId)
    else if SyncZone(n) != SyncZone(l) then SyncSameGeneration
    else Changes(AllChanges(n, l))
  }

  function Annotate(evt: Entry, last: Option<Entry>): Comment {
    if evt.OldEvent? then OldEventComment
    else if last.None? then Setup(Singleton(evt.state))
    else if last.value.OldEvent? then FollowUp
    else AnnotateStates(evt.state, last.value.state)
  }

  /** The loop over the sorted history. */
  method AnnotateHistory(history: seq<Entry>) returns (comments: seq<Comment>)
    ensures |comments| == |history|
    ensures forall i :: 0 <= i < |history| ==>
      comments[i] == Annotate(history[i], if i == 0 then None else Some(history[i - 1]))
  {
    comments := [];
    var prev: Option<Entry> := None;
    for i := 0 to |history|
      invariant |comments| == i
      invariant prev == if i == 0 then None else Some(history[i - 1])
      invariant forall j :: 0 <= j < i ==>
        comments[j] == Annotate(history[j], if j == 0 then None else Some(history[j - 1]))
    {
      comments := comments + [Annotate(history[i], prev)];
      prev := Some(history[i]);
    }
  }

  // --- What a comment without an error means for two neighbours

  predicate SameLeaders(a: ClusterState, b: ClusterState) {
    a.primary.zoneId == b.primary.zoneId && SyncZone(a) == SyncZone(b)
  }

  /** The steps that the cluster may take, in its own terms. */
  predicate LegalStep(l: ClusterState, n: ClusterState) {
    && l.generation <= n.generation
    && (Singleton(n) ==> Singleton(l))
    && (Singleton(l) == Singleton(n) ==>
          || (l.generation == n.generation && SameLeaders(l, n))
          // the sync takes over
          || (l.generation < n.generation && l.primary.zoneId != n.primary.zoneId && SyncZone(l) == Some(n.primary.zoneId))
          // the primary chooses another sync
          || (l.generation < n.generation && l.primary.zoneId == n.primary.zoneId && n.sync.Some?
              && SyncZone(l) != SyncZone(n) && (Singleton(l) ==> l.sync.Some?)))
  }

  /** The comments tell exactly the legal steps from the others. */
  lemma CommentIsExact(n: ClusterState, l: ClusterState)
    ensures !IsError(AnnotateStates(n, l)) <==> LegalStep(l, n)
  {
  }

  /**
   * A null sync is dereferenced exactly on a raised generation under the same primary and in the same mode, when there
   * is no sync now, or there was none before in singleton mode.
   */
  lemma ThrowsExactlyWhen(n: ClusterState, l: ClusterState)
    ensures AnnotateStates(n, l).Throws? <==>
      && Singleton(l) == Singleton(n) && l.generation < n.generation && l.primary.zoneId == n.primary.zoneId
      && (n.sync.None? || (l.sync.None? && Singleton(l)))
  {
  }

  /** Two entries that make it throw: a shard that has lost its only standby, at the next generation. */
  lemma ThrowingHistory() returns (history: seq<Entry>)
    ensures |history| == 2 && history[0].StateEntry? && history[1].StateEntry?
    ensures Annotate(history[0], None) == Setup(false) && Annotate(history[1], Some(history[0])).Throws?
  {
    var p, s := Peer("10.0.0.1:5432:12345", "10.0.0.1", "a"), Peer("10.0.0.2:5432:12345", "10.0.0.2", "b");
    var before := ClusterState(1, p, Some(s), [], Some([]), "0/0000000", None, None);
    var after := before.(generation := 2, sync := None, deposed := Some([s]));
    history := [StateEntry(before), StateEntry(after)];
    ThrowsExactlyWhen(after, before);
  }

  predicate AllIn(zones: seq<string>, others: seq<string>) {
    forall z :: z in zones ==> z in others
  }

  lemma {:induction false} MissingIsEmpty(zones: seq<string>, others: seq<string>, change: string -> Change)
    ensures Missing(zones, others, change) == [] <==> AllIn(zones, others)
  {
    if zones != [] {
      MissingIsEmpty(zones[1..], others, change);
      assert forall z :: z in zones <==> z == zones[0] || z in zones[1..];
    }
  }

  predicate HasZone(peers: seq<Peer>, z: string) {
    exists i :: 0 <= i < |peers| && peers[i].zoneId == z
  }

  lemma {:induction false} ZonesAre(peers: seq<Peer>, z: string)
    ensures z in Zones(peers) <==> HasZone(peers, z)
  {
    if peers != [] {
      ZonesAre(peers[..|peers| - 1], z);
    }
  }

  ghost predicate SameZones(a: seq<Peer>, b: seq<Peer>) {
    forall z :: HasZone(a, z) <==> HasZone(b, z)
  }

  lemma ZonesCompared(a: seq<Peer>, b: seq<Peer>)
    ensures SameZones(a, b) <==> AllIn(Zones(a), Zones(b)) && AllIn(Zones(b), Zones(a))
  {
    forall z ensures (z in Zones(a) <==> HasZone(a, z)) && (z in Zones(b) <==> HasZone(b, z)) {
      ZonesAre(a, z);
      ZonesAre(b, z);
    }
  }

  lemma PeerChangesAreExact(now: seq<Peer>, before: seq<Peer>, came: string -> Change, left: string -> Change)
    ensures PeerChanges(now, before, came, left) == [] <==> SameZones(now, before)
  {
    var a, b := Missing(Zones(now), Zones(before), came), Missing(Zones(before), Zones(now), left);
    MissingIsEmpty(Zones(now), Zones(before), came);
    MissingIsEmpty(Zones(before), Zones(now), left);
    ZonesCompared(now, before);
    assert PeerChanges(now, before, came, left) == a + b;
    assert |a + b| == |a| + |b|;
    assert a + b == [] <==> a == [] && b == [];
  }

  lemma AllEmpty(a: seq<Change>, b: seq<Change>, c: seq<Change>)
    ensures a + b + c == [] <==> a == [] && b == [] && c == []
  {
    assert |a + b + c| == |a| + |b| + |c|;
  }

  /** An empty comment means that nothing it reports on has changed. */
  lemma NoChangeIsExact(n: ClusterState, l: ClusterState)
    ensures AllChanges(n, l) == [] <==>
      (n.freeze.Some? <==> l.freeze.Some?) && SameZones(n.asyncs, l.asyncs) && SameZones(Deposed(n), Deposed(l))
  {
    var added, removed := z => AsyncAdded(z), z => AsyncRemoved(z);
    var deposed, undeposed := z => NowDeposed(z), z => NoLongerDeposed(z);
    var f := FreezeChange(n, l);
    var a := PeerChanges(n.asyncs, l.asyncs, added, removed);
    var d := PeerChanges(Deposed(n), Deposed(l), deposed, undeposed);
    PeerChangesAreExact(n.asyncs, l.asyncs, added, removed);
    PeerChangesAreExact(Deposed(n), Deposed(l), deposed, undeposed);
    assert f == [] <==> (n.freeze.Some? <==> l.freeze.Some?);
    AllEmpty(f, a, d);
    assert AllChanges(n, l) == f + a + d;
  }

  /** How the commands that an operator gives show in the history. */
  lemma CommandsShow(s: ClusterState, freeze: Freeze)
    ensures var on, off := Applied(SetOnwm("on"), s), Applied(SetOnwm("off"), s);
      && (on.Some? ==> AnnotateStates(on.value, s) == BecameSingleton)
      && (off.Some? && s.oneNodeWriteMode == Some(true) ==> AnnotateStates(off.value, s) == LeftSingleton)
    ensures var frozen, thawed := Applied(FreezeShard(freeze), s), Applied(UnfreezeShard, s);
      && (frozen.Some? ==> AnnotateStates(frozen.value, s) == Changes([Frozen(freeze.reason)]))
      && (thawed.Some? ==> AnnotateStates(thawed.value, s) == Changes([Unfrozen]))
  {
    PeerChangesAreExact(s.asyncs, s.asyncs, z => AsyncAdded(z), z => AsyncRemoved(z));
    PeerChangesAreExact(Deposed(s), Deposed(s), z => NowDeposed(z), z => NoLongerDeposed(z));
  }

  lemma {:induction false} ZonesDistinct(peers: seq<Peer>)
    ensures Distinct(Zones(peers))
  {
    if peers != [] {
      ZonesDistinct(peers[..|peers| - 1]);
    }
  }

  lemma {:induction false} MissingDistinct(zones: seq<string>, others: seq<string>, change: string -> Change)
    requires Distinct(zones) && forall y, z :: change(y) == change(z) ==> y == z
    ensures Distinct(Missing(zones, others, change))
  {
    if zones != [] {
      MissingDistinct(zones[1..], others, change);
      MissingAre(zones[1..], others, change, change(zones[0]));
    }
  }

  /** Nothing is reported twice, even where a peer is listed twice. */
  lemma NothingTwice(now: seq<Peer>, before: seq<Peer>, came: string -> Change, left: string -> Change)
    requires forall y, z :: (came(y) == came(z) ==> y == z) && (left(y) == left(z) ==> y == z) && came(y) != left(z)
    ensures Distinct(PeerChanges(now, before, came, left))
  {
    ZonesDistinct(now);
    ZonesDistinct(before);
    var a, b := Missing(Zones(now), Zones(before), came), Missing(Zones(before), Zones(now), left);
    MissingDistinct(Zones(now), Zones(before), came);
    MissingDistinct(Zones(before), Zones(now), left);
    forall i, j | 0 <= i < |a| && 0 <= j < |b| ensures a[i] != b[j] {
      MissingAre(Zones(now), Zones(before), came, a[i]);
      MissingAre(Zones(before), Zones(now), left, b[j]);
    }
  }

  lemma {:induction false} MissingAre(zones: seq<string>, others: seq<string>, change: string -> Change, c: Change)
    ensures c in Missing(zones, others, change) <==> exists z :: z in zones && z !in others && c == change(z)
  {
    if zones != [] {
      MissingAre(zones[1..], others, change, c);
      assert forall z :: z in zones <==> z == zones[0] || z in zones[1..];
    }
  }

  /** What is reported: who came, and who left. */
  lemma PeerChangesAre(now: seq<Peer>, before: seq<Peer>, came: string -> Change, left: string -> Change, c: Change)
    ensures c in PeerChanges(now, before, came, left) <==>
      || (exists z :: HasZone(now, z) && !HasZone(before, z) && c == came(z))
      || (exists z :: HasZone(before, z) && !HasZone(now, z) && c == left(z))
  {
    MissingAre(Zones(now), Zones(before), came, c);
    MissingAre(Zones(before), Zones(now), left, c);
    forall z ensures (z in Zones(now) <==> HasZone(now, z)) && (z in Zones(before) <==> HasZone(before, z)) {
      ZonesAre(now, z);
      ZonesAre(before, z);
    }
  }

  /** The peer came to be among them with this entry. */
  predicate Came(now: seq<Peer>, before: seq<Peer>, z: string) {
    HasZone(now, z) && !HasZone(before, z)
  }

  /** A change is reported exactly if it has happened. */
  lemma ChangesAreExact(n: ClusterState, l: ClusterState, c: Change)
    ensures c in AllChanges(n, l) <==>
      match c
      case Frozen(reason) => l.freeze.None? && n.freeze.Some? && n.freeze.value.reason == reason
      case Unfrozen => l.freeze.Some? && n.freeze.None?
      case AsyncAdded(z) => Came(n.asyncs, l.asyncs, z)
      case AsyncRemoved(z) => Came(l.asyncs, n.asyncs, z)
      case NowDeposed(z) => Came(Deposed(n), Deposed(l), z)
      case NoLongerDeposed(z) => Came(Deposed(l), Deposed(n), z)
  {
    PeerChangesAre(n.asyncs, l.asyncs, z => AsyncAdded(z), z => AsyncRemoved(z), c);
    PeerChangesAre(Deposed(n), Deposed(l), z => NowDeposed(z), z => NoLongerDeposed(z), c);
  }

  /** A comment that tells of leaders tells of the right ones. */
  lemma LeadersAreNamed(n: ClusterState, l: ClusterState)
    ensures match AnnotateStates(n, l)
      case TookOver(zoneId, from) =>
        zoneId == n.primary.zoneId && SyncZone(l) == Some(zoneId) && from == l.primary.zoneId && from != zoneId
      case SyncAdded(zoneId) => SyncZone(n) == Some(zoneId) && l.sync.None?
      case NewSync(primary, was, now) =>
        primary == n.primary.zoneId == l.primary.zoneId && SyncZone(l) == Some(was) && SyncZone(n) == Some(now) && was != now
      case LeftSingleton => Singleton(l) && !Singleton(n)
      case Changes(_) => n.generation == l.generation && SameLeaders(l, n)
      case _ => true
  {
  }

  /** Which error is reported: the first that applies. */
  lemma ErrorsAreExact(n: ClusterState, l: ClusterState)
    ensures var c, sameMode := AnnotateStates(n, l), Singleton(l) == Singleton(n);
      && (c.GenerationWentBack? <==> n.generation < l.generation)
      && (c.BecameSingleton? <==> l.generation <= n.generation && !Singleton(l) && Singleton(n))
      && (c.NewPrimarySameGeneration? <==>
            sameMode && n.generation == l.generation && n.primary.zoneId != l.primary.zoneId)
      && (c.NewPrimaryNotSync? <==>
            sameMode && l.generation < n.generation && n.primary.zoneId != l.primary.zoneId
            && SyncZone(l) != Some(n.primary.zoneId))
      && (c.GenerationWithoutReason? <==>
            sameMode && l.generation < n.generation && SameLeaders(l, n) && n.sync.Some?)
      && (c.SyncSameGeneration? <==>
            sameMode && n.generation == l.generation && n.primary.zoneId == l.primary.zoneId && SyncZone(n) != SyncZone(l))
  {
  }

  // --- What it means for the whole history

  /** A history of states only, in which no comment is an error. */
  predicate Clean(history: seq<Entry>) {
    && (forall i :: 0 <= i < |history| ==> history[i].StateEntry?)
    && forall i {:trigger CleanStep(history, i)} :: 1 <= i < |history| ==> CleanStep(history, i)
  }

  predicate CleanStep(history: seq<Entry>, i: int)
    requires 1 <= i < |history|
  {
    !IsError(Annotate(history[i], Some(history[i - 1])))
  }

  lemma StepIsLegal(history: seq<Entry>, i: int)
    requires Clean(history) && 1 <= i < |history|
    ensures LegalStep(history[i - 1].state, history[i].state)
  {
    assert CleanStep(history, i);
    CommentIsExact(history[i].state, history[i - 1].state);
  }

  lemma {:induction false} GenerationsGrow(history: seq<Entry>, i: nat, j: nat)
    requires Clean(history) && i <= j < |history|
    ensures history[i].state.generation <= history[j].state.generation
    decreases j
  {
    if i < j {
      GenerationsGrow(history, i, j - 1);
      StepIsLegal(history, j);
    }
  }

  /** Singleton mode is never entered again: whoever is in it has been in it from the beginning. */
  lemma {:induction false} SingletonNeverEntered(history: seq<Entry>, i: nat, j: nat)
    requires Clean(history) && i <= j < |history| && Singleton(history[j].state)
    ensures Singleton(history[i].state)
    decreases j
  {
    if i < j {
      StepIsLegal(history, j);
      SingletonNeverEntered(history, i, j - 1);
    }
  }

  /** It is left at most once. */
  lemma SingletonLeftOnce(history: seq<Entry>, i: nat, j: nat)
    requires Clean(history) && 1 <= i < |history| && 1 <= j < |history|
    requires Annotate(history[i], Some(history[i - 1])).LeftSingleton?
    requires Annotate(history[j], Some(history[j - 1])).LeftSingleton?
    ensures i == j
  {
    if i < j {
      SingletonNeverEntered(history, i, j - 1);
    } else if j < i {
      SingletonNeverEntered(history, j, i - 1);
    }
  }

  /** Within one mode, any two entries of one generation, however far apart, have the same primary and sync. */
  lemma {:induction false} GenerationDeterminesLeaders(history: seq<Entry>, i: nat, j: nat)
    requires Clean(history) && i <= j < |history|
    requires history[i].state.generation == history[j].state.generation
    requires Singleton(history[i].state) == Singleton(history[j].state)
    ensures SameLeaders(history[i].state, history[j].state)
    decreases j
  {
    if i < j {
      var k := j - 1;
      GenerationsGrow(history, i, k);
      GenerationsGrow(history, k, j);
      if Singleton(history[j].state) {
        SingletonNeverEntered(history, k, j);
      } else if Singleton(history[k].state) {
        SingletonNeverEntered(history, i, k);
      }
      GenerationDeterminesLeaders(history, i, k);
      StepIsLegal(history, j);
    }
  }

  /** Within one mode, a change of primary raises the generation and promotes the sync of the entry before. */
  lemma PrimaryChangePromotesSync(history: seq<Entry>, i: nat)
    requires Clean(history) && 1 <= i < |history|
    requires Singleton(history[i - 1].state) == Singleton(history[i].state)
    requires history[i - 1].state.primary.zoneId != history[i].state.primary.zoneId
    ensures history[i - 1].state.generation < history[i].state.generation
    ensures SyncZone(history[i - 1].state) == Some(history[i].state.primary.zoneId)
  {
    StepIsLegal(history, i);
  }

  /** Two entries of one mode with different primaries are of different generations. */
  lemma OnePrimaryPerGeneration(history: seq<Entry>, i: nat, j: nat)
    requires Clean(history) && i < |history| && j < |history|
    requires Singleton(history[i].state) == Singleton(history[j].state)
    requires history[i].state.primary.zoneId != history[j].state.primary.zoneId
    ensures history[i].state.generation != history[j].state.generation
  {
    if history[i].state.generation == history[j].state.generation {
      if i <= j {
        GenerationDeterminesLeaders(history, i, j);
      } else {
        GenerationDeterminesLeaders(history, j, i);
      }
    }
  }
}
