/** As much of ZFS as the restore protocol relies on: datasets that own snapshots, clones and their origins. */
module Zfs {
  import opened Wrappers

  /** A file-system image, by identity. */
  type Image = nat

  datatype Snap = Snap(name: string, image: Image)

  datatype Origin = Origin(dataset: string, snap: string)

  /** The snapshots are those the dataset owns, oldest first. */
  datatype Dataset = Dataset(contents: Image, snaps: seq<Snap>, origin: Option<Origin>)

  type Pool = map<string, Dataset>

  function Find(snaps: seq<Snap>, name: string): (image: Option<Image>)
    ensures image.None? ==> forall i :: 0 <= i < |snaps| ==> snaps[i].name != name
  {
    if snaps == [] then None
    else if snaps[0].name == name then Some(snaps[0].image)
    else Find(snaps[1..], name)
  }

  function IndexOf(snaps: seq<Snap>, name: string): (i: nat)
    requires Find(snaps, name).Some?
    ensures i < |snaps| && snaps[i].name == name
  {
    if snaps[0].name == name then 0 else 1 + IndexOf(snaps[1..], name)
  }

  lemma {:induction false} FindInPrefix(snaps: seq<Snap>, name: string)
    requires Find(snaps, name).Some?
    ensures Find(snaps[..IndexOf(snaps, name) + 1], name) == Find(snaps, name)
  {
    if snaps[0].name != name {
      FindInPrefix(snaps[1..], name);
      assert snaps[..IndexOf(snaps, name) + 1][1..] == snaps[1..][..IndexOf(snaps[1..], name) + 1];
    }
  }

  lemma {:induction false} FindInSum(a: seq<Snap>, b: seq<Snap>, name: string)
    ensures Find(a + b, name) == if Find(a, name).Some? then Find(a, name) else Find(b, name)
  {
    if a == [] {
      assert a + b == b;
    } else {
      assert (a + b)[1..] == a[1..] + b;
      FindInSum(a[1..], b, name);
    }
  }

  /** Some other dataset is a clone of this snapshot. */
  predicate HasClone(pool: Pool, dataset: string, snap: string) {
    exists d :: d in pool && pool[d].origin == Some(Origin(dataset, snap))
  }

  /** An empty file system. */
  const EMPTY: Image := 0

  datatype Command =
    | Create(dataset: string)
    | TakeSnapshot(dataset: string, snap: string)
    | Clone(dataset: string, snap: string, target: string)
    | Promote(dataset: string)
    | Destroy(dataset: string)       // zfs destroy -r: with all snapshots, unless one of them has a clone
    | Other(what: string)            // leaves all images alone: properties, mounting, ownership, network

  /** Promotion hands over the origin snapshot and all older ones; clones of them follow. */
  function Promoted(pool: Pool, b: string, parent: string, snap: string): Pool
    requires b in pool && parent in pool && b != parent && Find(pool[parent].snaps, snap).Some?
  {
    var p := pool[parent];
    var k := IndexOf(p.snaps, snap) + 1;
    map d | d in pool ::
      if d == b then pool[b].(snaps := p.snaps[..k] + pool[b].snaps, origin := p.origin)
      else if d == parent then p.(snaps := p.snaps[k..], origin := Some(Origin(b, snap)))
      else if pool[d].origin.Some? && pool[d].origin.value.dataset == parent
              && Find(p.snaps[..k], pool[d].origin.value.snap).Some?
      then pool[d].(origin := Some(Origin(b, pool[d].origin.value.snap)))
      else pool[d]
  }

  /** The pool after a command, or None when ZFS refuses it. */
  function Apply(pool: Pool, c: Command): Option<Pool> {
    match c
    case Create(d) =>
      if d in pool then None else Some(pool[d := Dataset(EMPTY, [], None)])
    case TakeSnapshot(d, snap) =>
      if d !in pool || Find(pool[d].snaps, snap).Some? then None
      else Some(pool[d := pool[d].(snaps := pool[d].snaps + [Snap(snap, pool[d].contents)])])
    case Clone(d, snap, target) =>
      if d !in pool || target in pool || Find(pool[d].snaps, snap).None? then None
      else Some(pool[target := Dataset(Find(pool[d].snaps, snap).value, [], Some(Origin(d, snap)))])
    case Promote(b) =>
      if b !in pool || pool[b].origin.None? then None
      else
        var o := pool[b].origin.value;
        if o.dataset !in pool || o.dataset == b || Find(pool[o.dataset].snaps, o.snap).None? then None
        else Some(Promoted(pool, b, o.dataset, o.snap))
    case Destroy(d) =>
      if d !in pool || exists x :: x in pool && x != d && pool[x].origin.Some? && pool[x].origin.value.dataset == d
      then None else Some(pool - {d})
    case Other(_) => Some(pool)
  }

  /**
   * What other processes may do meanwhile: the snapshotter adds snapshots to the live dataset and destroys ones
   * without clones; a `zfs recv` under way may create the live dataset when there is none.
   */
  predicate Plausible(live: string, receiving: bool, p: Pool, q: Pool) {
    && (forall d :: d in p && d != live ==> d in q && q[d] == p[d])
    && (forall d :: d in q && d != live ==> d in p)
    && (live in p ==>
          && live in q && q[live].contents == p[live].contents && q[live].origin == p[live].origin
          && (forall s <- p[live].snaps :: HasClone(p, live, s.name) ==> Find(q[live].snaps, s.name) == Find(p[live].snaps, s.name))
          && (forall s <- q[live].snaps :: Find(q[live].snaps, s.name) in {Find(p[live].snaps, s.name), Some(p[live].contents)}))
    && (live !in p && live in q ==> receiving && q[live].origin.None?)
  }

  // --- What the protocol needs to know of the commands

  predicate Owns(pool: Pool, dataset: string, snap: string, image: Image) {
    dataset in pool && Find(pool[dataset].snaps, snap) == Some(image)
  }

  predicate Contains(pool: Pool, dataset: string, image: Image) {
    dataset in pool && pool[dataset].contents == image
  }

  predicate ClonedFrom(pool: Pool, clone: string, dataset: string, snap: string) {
    clone in pool && pool[clone].origin == Some(Origin(dataset, snap))
  }

  lemma {:induction false} FindIsMember(snaps: seq<Snap>, name: string) returns (i: nat)
    requires Find(snaps, name).Some?
    ensures i < |snaps| && snaps[i].name == name
  {
    i := IndexOf(snaps, name);
  }

  /** A promoted clone owns the snapshot it came from, with the same image, and keeps its contents. */
  lemma PromoteHandsOver(pool: Pool, b: string, parent: string, snap: string, image: Image)
    requires ClonedFrom(pool, b, parent, snap) && Apply(pool, Promote(b)).Some?
    requires Owns(pool, parent, snap, image)
    ensures var q := Apply(pool, Promote(b)).value;
      && Owns(q, b, snap, image) && q[b].contents == pool[b].contents
      && ClonedFrom(q, parent, b, snap) && q[parent].contents == pool[parent].contents
  {
    FindInPrefix(pool[parent].snaps, snap);
    FindInSum(pool[parent].snaps[..IndexOf(pool[parent].snaps, snap) + 1], pool[b].snaps, snap);
  }

  lemma SnapshotOwned(pool: Pool, d: string, snap: string)
    requires Apply(pool, TakeSnapshot(d, snap)).Some?
    ensures Owns(Apply(pool, TakeSnapshot(d, snap)).value, d, snap, pool[d].contents)
  {
    FindInSum(pool[d].snaps, [Snap(snap, pool[d].contents)], snap);
  }

  /** A snapshot of the live dataset that has a clone outlasts any disturbance. */
  lemma ClonedSnapshotStays(live: string, receiving: bool, p: Pool, q: Pool, clone: string, snap: string, image: Image)
    requires Plausible(live, receiving, p, q) && ClonedFrom(p, clone, live, snap) && clone != live
    requires Owns(p, live, snap, image)
    ensures Owns(q, live, snap, image) && ClonedFrom(q, clone, live, snap)
  {
    assert HasClone(p, live, snap);
    var i := FindIsMember(p[live].snaps, snap);
    assert p[live].snaps[i] in p[live].snaps;
  }

  /** Where no snapshot of that name held anything but the present contents, none does after a disturbance. */
  lemma SnapshotStaysTrue(live: string, receiving: bool, p: Pool, q: Pool, snap: string, image: Image)
    requires Plausible(live, receiving, p, q) && Contains(p, live, image)
    requires Find(p[live].snaps, snap) in {None, Some(image)}
    ensures Contains(q, live, image) && Find(q[live].snaps, snap) in {None, Some(image)}
  {
    if Find(q[live].snaps, snap).Some? {
      var i := FindIsMember(q[live].snaps, snap);
      assert q[live].snaps[i] in q[live].snaps;
    }
  }

  /** The snapshotter may take a snapshot of the live dataset. */
  lemma SnapshotIsPlausible(live: string, receiving: bool, p: Pool, snap: string)
    requires Apply(p, TakeSnapshot(live, snap)).Some?
    ensures Plausible(live, receiving, p, Apply(p, TakeSnapshot(live, snap)).value)
  {
    var q := Apply(p, TakeSnapshot(live, snap)).value;
    var taken := [Snap(snap, p[live].contents)];
    forall s | s in p[live].snaps ensures Find(q[live].snaps, s.name) == Find(p[live].snaps, s.name) {
      FindInSum(p[live].snaps, taken, s.name);
    }
    forall s | s in q[live].snaps
      ensures Find(q[live].snaps, s.name) in {Find(p[live].snaps, s.name), Some(p[live].contents)}
    {
      FindInSum(p[live].snaps, taken, s.name);
    }
  }

  /** And it may destroy the oldest, if that has no clone. */
  lemma DestructionIsPlausible(live: string, receiving: bool, p: Pool)
    requires live in p && p[live].snaps != [] && !HasClone(p, live, p[live].snaps[0].name)
    requires forall s <- p[live].snaps[1..] :: s.name != p[live].snaps[0].name
    ensures Plausible(live, receiving, p, p[live := p[live].(snaps := p[live].snaps[1..])])
  {
  }

  /** Two disturbances, one after the other, are one. */
  lemma PlausibleOn(live: string, receiving: bool, p: Pool, q: Pool, r: Pool)
    requires Plausible(live, receiving, p, q) && Plausible(live, receiving, q, r)
    ensures Plausible(live, receiving, p, r)
  {
    if live in p {
      forall s | s in p[live].snaps && HasClone(p, live, s.name)
        ensures Find(r[live].snaps, s.name) == Find(p[live].snaps, s.name)
      {
        var d :| d in p && p[d].origin == Some(Origin(live, s.name));
        assert d in q && q[d].origin == p[d].origin;
        if Find(q[live].snaps, s.name).Some? {
          var i := FindIsMember(q[live].snaps, s.name);
          assert q[live].snaps[i] in q[live].snaps;
        }
      }
      forall s | s in r[live].snaps
        ensures Find(r[live].snaps, s.name) in {Find(p[live].snaps, s.name), Some(p[live].contents)}
      {
        if Find(q[live].snaps, s.name).Some? {
          var i := FindIsMember(q[live].snaps, s.name);
          assert q[live].snaps[i] in q[live].snaps;
        }
      }
    }
  }

  // --- What holds of every pool

  /** Every clone's origin is there. */
  predicate OriginsExist(pool: Pool) {
    forall d :: d in pool && pool[d].origin.Some? ==>
      pool[d].origin.value.dataset in pool && Find(pool[pool[d].origin.value.dataset].snaps, pool[d].origin.value.snap).Some?
  }

  /** No dataset is a clone of a clone of its own. */
  predicate NoneMutual(pool: Pool) {
    forall d :: d in pool && pool[d].origin.Some? ==>
      var parent := pool[d].origin.value.dataset;
      parent in pool && pool[parent].origin.Some? ==> pool[parent].origin.value.dataset !in {d, parent}
  }

  /** No command takes a snapshot away that has a clone; promotion hands its clones over with it. */
  lemma OriginsStay(pool: Pool, c: Command)
    requires OriginsExist(pool) && NoneMutual(pool) && Apply(pool, c).Some?
    ensures OriginsExist(Apply(pool, c).value)
  {
    var q := Apply(pool, c).value;
    match c
    case TakeSnapshot(d, snap) =>
      forall x | x in q && q[x].origin.Some? && q[x].origin.value.dataset == d {
        FindInSum(pool[d].snaps, [Snap(snap, pool[d].contents)], q[x].origin.value.snap);
      }
    case Promote(b) =>
      PromotedOriginsExist(pool, b, pool[b].origin.value.dataset, pool[b].origin.value.snap);
    case _ =>
  }

  lemma PromotedOriginsExist(pool: Pool, b: string, parent: string, snap: string)
    requires OriginsExist(pool) && NoneMutual(pool) && ClonedFrom(pool, b, parent, snap) && b != parent && parent in pool
    requires Find(pool[parent].snaps, snap).Some?
    ensures OriginsExist(Promoted(pool, b, parent, snap))
  {
    var p, q := pool[parent], Promoted(pool, b, parent, snap);
    var k := IndexOf(p.snaps, snap) + 1;
    FindInPrefix(p.snaps, snap);
    forall d | d in q && q[d].origin.Some?
      ensures q[d].origin.value.dataset in q && Find(q[q[d].origin.value.dataset].snaps, q[d].origin.value.snap).Some?
    {
      FindInSum(p.snaps[..k], p.snaps[k..], q[d].origin.value.snap);
      assert p.snaps[..k] + p.snaps[k..] == p.snaps;
      FindInSum(p.snaps[..k], pool[b].snaps, q[d].origin.value.snap);
    }
  }

  // --- What stays untouched

  /** All datasets but those of `touched` keep their contents and their snapshots. */
  predicate Keeps(p: Pool, q: Pool, touched: set<string>) {
    forall d :: d in p && d !in touched ==> d in q && q[d].snaps == p[d].snaps && q[d].contents == p[d].contents
  }

  /** The datasets whose contents or snapshots a command changes. */
  function Touches(pool: Pool, c: Command): set<string> {
    match c
    case Create(_) => {}
    case TakeSnapshot(d, _) => {d}
    case Clone(_, _, _) => {}
    case Promote(b) => if b in pool && pool[b].origin.Some? then {b, pool[b].origin.value.dataset} else {b}
    case Destroy(d) => {d}
    case Other(_) => {}
  }

  lemma ApplyKeeps(pool: Pool, c: Command)
    requires Apply(pool, c).Some?
    ensures Keeps(pool, Apply(pool, c).value, Touches(pool, c))
  {
  }

  lemma KeepsOn(p: Pool, q: Pool, r: Pool, touched: set<string>)
    requires Keeps(p, q, touched) && Keeps(q, r, touched)
    ensures Keeps(p, r, touched)
  {
  }

  lemma KeepsMore(p: Pool, q: Pool, few: set<string>, many: set<string>)
    requires Keeps(p, q, few) && few <= many
    ensures Keeps(p, q, many)
  {
  }

  /** A command that touches only what it may, after a disturbance. */
  lemma DisturbedKeeps(live: string, receiving: bool, p: Pool, q: Pool, c: Command, touched: set<string>)
    requires Plausible(live, receiving, p, q) && live in touched && Touches(q, c) <= touched
    ensures Keeps(p, q, touched)
    ensures Apply(q, c).Some? ==> Keeps(p, Apply(q, c).value, touched)
  {
    if Apply(q, c).Some? {
      ApplyKeeps(q, c);
      KeepsMore(q, Apply(q, c).value, Touches(q, c), touched);
      KeepsOn(p, q, Apply(q, c).value, touched);
    }
  }
}
