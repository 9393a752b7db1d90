/** The restore protocol of lib/zfsClient.js, and how `_standby` of lib/postgresMgr.js uses it. */
module ZfsRestore {
  import opened Wrappers
  import opened Zfs

  /** How a pipeline ends. `Stuck`: its callback is never made. `Died`: the process or machine went down in the middle. */
  datatype Outcome = Succeeded | Failed | Stuck | Died

  datatype Verdict = Works | Breaks | Dies

  /** One command's surroundings: the pool that other processes have made by then, the verdict, and what gets written. */
  datatype Turn = Turn(pool: Pool, verdict: Verdict, written: Image)

  /** The image is still there: as what the live dataset contains, or in the backup's snapshot. */
  predicate Held(pool: Pool, live: string, backup: string, snap: string, image: Image) {
    Contains(pool, live, image) || Owns(pool, backup, snap, image)
  }

  /** None of the next `n` commands fails by itself. */
  predicate AllWork(script: seq<Turn>, n: nat) {
    |script| >= n && forall i :: 0 <= i < n ==> script[i].verdict.Works?
  }

  /** The next `n` commands meet no disturbance and no failure of their own. */
  predicate Calm(script: seq<Turn>, n: nat) {
    |script| >= n && forall i :: 0 <= i < n ==> script[i].verdict.Works? && script[i].pool == map[]
  }

  /** The command number `k` breaks, and none before it does. */
  predicate BreaksAt(script: seq<Turn>, k: nat) {
    AllWork(script, k) && k < |script| && script[k].verdict.Breaks?
  }

  /** What a command finds: the pool that others have made by its turn, if they can have. */
  function Found(live: string, receiving: bool, p: Pool, script: seq<Turn>): (q: Pool)
    ensures Plausible(live, receiving, p, q)
    ensures script == [] || script[0].pool == map[] ==> q == p
  {
    if script != [] && Plausible(live, receiving, p, script[0].pool) then script[0].pool else p
  }

  /**
   * A pipeline of `n` commands went through them in order, up to the first that does not work: with `before` to come when
   * it began and `after` when it ended, it came to `r`.
   */
  predicate Ends(r: Outcome, before: seq<Turn>, after: seq<Turn>, n: nat) {
    if n == 0 then r.Succeeded? && after == before
    else if before == [] then r.Died? && after == []
    else match before[0].verdict
      case Works => Ends(r, before[1..], after, n - 1)
      case Breaks => r.Failed? && after == before[1..]
      case Dies => r.Died? && after == before[1..]
  }

  /** One pipeline after the other is one pipeline. */
  lemma {:induction false} EndsBoth(r: Outcome, a: seq<Turn>, b: seq<Turn>, c: seq<Turn>, m: nat, n: nat)
    requires Ends(Succeeded, a, b, m) && Ends(r, b, c, n)
    ensures Ends(r, a, c, m + n)
  {
    if m > 0 {
      EndsBoth(r, a[1..], b, c, m - 1, n);
    }
  }

  /** What ends a pipeline ends the longer one. */
  lemma {:induction false} EndsEarly(r: Outcome, a: seq<Turn>, b: seq<Turn>, m: nat, n: nat)
    requires Ends(r, a, b, m) && !r.Succeeded?
    ensures Ends(r, a, b, m + n)
  {
    if m > 0 && a != [] && a[0].verdict.Works? {
      EndsEarly(r, a[1..], b, m - 1, n);
    }
  }

  lemma {:induction false} EndsWell(r: Outcome, before: seq<Turn>, after: seq<Turn>, n: nat)
    requires Ends(r, before, after, n)
    ensures r in {Succeeded, Failed, Died}
    ensures r.Succeeded? <==> AllWork(before, n)
    ensures r.Succeeded? ==> after == before[n..]
  {
    if n > 0 && before != [] {
      if before[0].verdict.Works? {
        EndsWell(r, before[1..], after, n - 1);
        assert AllWork(before, n) ==> forall i :: 0 <= i < n - 1 ==> before[1..][i] == before[i + 1];
        assert AllWork(before[1..], n - 1) ==> forall i :: 0 < i < n ==> before[i] == before[1..][i - 1];
      } else {
        assert !AllWork(before, n);
      }
    }
  }

  lemma WorkBoth(a: seq<Turn>, b: seq<Turn>, m: nat, n: nat)
    requires AllWork(a, m) && b == a[m..] && AllWork(b, n)
    ensures AllWork(a, m + n)
  {
    forall i | 0 <= i < m + n ensures a[i].verdict.Works? {
      if i >= m {
        assert a[i] == b[i - m];
      }
    }
  }

  /** Where a pipeline ends is determined by the command that breaks. */
  lemma {:induction false} EndsThere(r: Outcome, before: seq<Turn>, after: seq<Turn>, n: nat, k: nat)
    requires Ends(r, before, after, n) && BreaksAt(before, k) && k < n
    ensures r.Failed? && after == before[k + 1..]
  {
    if k > 0 {
      assert before[0].verdict.Works?;
      assert forall i :: 0 <= i < k ==> before[1..][i] == before[i + 1];
      EndsThere(r, before[1..], after, n - 1, k - 1);
    }
  }

  /** `assertDataset` comes to remove all files while the dataset is still mounted. */
  predicate RemovalReached(script: seq<Turn>, mounted: bool) {
    && mounted && |script| > 5
    && script[0].verdict.Works?     // zfs list
    && script[1].verdict.Breaks?    // zfs unmount
    && script[2].verdict.Works? && script[3].verdict.Works? && script[4].verdict.Works?
  }

  /** What that leaves of the contents: nothing, or, if the removal breaks off, whatever it left. */
  function Remaining(script: seq<Turn>, mounted: bool, image: Image): Image {
    if !RemovalReached(script, mounted) then image
    else if script[5].verdict.Works? then EMPTY else script[5].written
  }

  /** The exact condition for a loss. */
  lemma LostExactlyWhen(script: seq<Turn>, mounted: bool, image: Image)
    requires image != EMPTY
    ensures Remaining(script, mounted, image) != image <==>
      RemovalReached(script, mounted) && (script[5].verdict.Works? || script[5].written != image)
  {
  }

  /** What can be known beforehand: contents are at risk exactly if the dataset is mounted. */
  lemma AtRiskExactlyWhenMounted(mounted: bool, image: Image)
    requires image != EMPTY
    ensures (forall script: seq<Turn> :: Remaining(script, mounted, image) == image) <==> !mounted
  {
    if mounted {
      var turn := Turn(map[], Works, EMPTY);
      var script := [turn, turn.(verdict := Breaks), turn, turn, turn, turn];
      assert RemovalReached(script, true) && Remaining(script, mounted, image) == EMPTY;
    }
  }

  /** From which command on the part after the restore goes. */
  lemma RestoredThen(before: seq<Turn>, after: seq<Turn>, restored: Outcome)
    ensures Ends(restored, before, after, 14) || (restored.Failed? && AllWork(before, 14)) ==>
      forall k: nat :: 5 <= k < 14 && BreaksAt(before, k) ==> restored.Failed? && after == before[k + 1..]
    ensures Ends(restored, before, after, 14) && restored.Succeeded? ==>
      && AllWork(before, 14) && after == before[14..]
      && (forall k: nat {:trigger BreaksAt(before, k)} :: k >= 14 && BreaksAt(before, k) ==>
            BreaksAt(after, k - 14) && after[k - 13..] == before[k + 1..])
      && (AllWork(before, 18) ==> AllWork(after, 4))
  {
    forall k: nat | 5 <= k < 14 && BreaksAt(before, k) && Ends(restored, before, after, 14)
      ensures restored.Failed? && after == before[k + 1..]
    {
      EndsThere(restored, before, after, 14, k);
    }
    if Ends(restored, before, after, 14) && restored.Succeeded? {
      EndsWell(restored, before, after, 14);
      assert forall i :: 0 <= i < |after| ==> after[i] == before[i + 14];
      forall k: nat | k >= 14 && BreaksAt(before, k) ensures BreaksAt(after, k - 14) && after[k - 13..] == before[k + 1..] {
        forall i | 0 <= i < k - 14 ensures after[i].verdict.Works? {
          assert before[i + 14].verdict.Works?;
        }
      }
    }
  }

  /** No dataset is a clone of one of its snapshots. */
  predicate Cloneless(pool: Pool, dataset: string) {
    forall d :: d in pool && pool[d].origin.Some? ==> pool[d].origin.value.dataset != dataset
  }

  /** Nothing is in the way of going back to the backup. */
  predicate Restorable(pool: Pool, live: string, backup: string) {
    Cloneless(pool, live) && Cloneless(pool - {live}, backup)
  }

  /** The live dataset has been received, and is no clone. */
  predicate Arrived(pool: Pool, live: string, backup: string) {
    Restorable(pool, live, backup) && live in pool && pool[live].origin.None?
  }

  lemma RestorableStays(live: string, receiving: bool, p: Pool, q: Pool, backup: string)
    requires Plausible(live, receiving, p, q) && Restorable(p, live, backup) && live != backup
    ensures Restorable(q, live, backup)
  {
    forall d | d in q && q[d].origin.Some?
      ensures q[d].origin.value.dataset != live && (d != live ==> q[d].origin.value.dataset != backup)
    {
      assert d in p && p[d].origin == q[d].origin;
      assert d != live ==> (p - {live})[d] == p[d];
    }
  }

  /** The backup and all else but the live dataset is left alone, and one can go back to it as before. */
  predicate Spares(p: Pool, q: Pool, live: string, backup: string) {
    && Keeps(p, q, {live}) && (backup in p ==> backup in q && q[backup] == p[backup])
    && (Restorable(p, live, backup) ==> Restorable(q, live, backup))
  }

  lemma DisturbanceSpares(live: string, receiving: bool, p: Pool, q: Pool, backup: string)
    requires Plausible(live, receiving, p, q) && live != backup
    ensures Spares(p, q, live, backup)
  {
    if Restorable(p, live, backup) {
      RestorableStays(live, receiving, p, q, backup);
    }
  }

  lemma SparesOn(p: Pool, q: Pool, r: Pool, live: string, backup: string)
    requires Spares(p, q, live, backup) && Spares(q, r, live, backup)
    ensures Spares(p, r, live, backup)
  {
  }

  /** The commands that are aimed at the live dataset once the backup is made. */
  lemma CommandSpares(p: Pool, c: Command, live: string, backup: string)
    requires live != backup && (c == Destroy(live) || (c.TakeSnapshot? && c.dataset == live)) && Apply(p, c).Some?
    ensures Spares(p, Apply(p, c).value, live, backup)
  {
    var q := Apply(p, c).value;
    forall d | d in q ensures d in p && q[d].origin == p[d].origin && (d != live ==> (p - {live})[d] == q[d]) {
    }
  }

  /** The names that a backup is made under are new. */
  predicate NewNames(pool: Pool, live: string, backup: string, snap: string) {
    && live in pool && backup !in pool && Find(pool[live].snaps, snap).None?
    && Cloneless(pool, live) && Cloneless(pool, backup)
  }

  /** The pool with the clone for the backup, and with the backup. */
  function Cloned(pool: Pool, live: string, backup: string, snap: string): Option<Pool> {
    var p := Apply(pool, TakeSnapshot(live, snap));
    if p.None? then None else Apply(p.value, Clone(live, snap, backup))
  }

  function BackedUp(pool: Pool, live: string, backup: string, snap: string): Option<Pool> {
    var p := Cloned(pool, live, backup, snap);
    if p.None? then None else Apply(p.value, Promote(backup))
  }

  /** The clone for the backup is the only clone around. */
  predicate OnlyClone(pool: Pool, live: string, backup: string) {
    Cloneless(pool - {backup}, live) && Cloneless(pool, backup)
  }

  lemma ClonedIsTheOnlyClone(pool: Pool, live: string, backup: string, snap: string)
    requires NewNames(pool, live, backup, snap)
    ensures Cloned(pool, live, backup, snap).Some? && OnlyClone(Cloned(pool, live, backup, snap).value, live, backup)
  {
    SnapshotOwned(pool, live, snap);
    var q := Cloned(pool, live, backup, snap).value;
    forall d | d in q && d != backup ensures d in pool && q[d].origin == pool[d].origin {
    }
  }

  lemma OnlyCloneStays(live: string, receiving: bool, p: Pool, q: Pool, backup: string)
    requires Plausible(live, receiving, p, q) && OnlyClone(p, live, backup) && live != backup && live in p
    ensures OnlyClone(q, live, backup)
  {
    forall d | d in q && q[d].origin.Some?
      ensures q[d].origin.value.dataset != backup && (d != backup ==> q[d].origin.value.dataset != live)
    {
      assert d in p && p[d].origin == q[d].origin;
      assert d != backup ==> (p - {backup})[d] == p[d];
    }
  }

  /** Promoting the only clone leads to a pool in which one can go back to it. */
  lemma PromotedIsRestorable(p: Pool, q: Pool, live: string, backup: string, snap: string)
    requires OnlyClone(p, live, backup) && ClonedFrom(p, backup, live, snap) && live != backup
    requires Apply(p, Promote(backup)) == Some(q)
    ensures Restorable(q, live, backup)
  {
    assert q[backup].origin == p[live].origin && (p - {backup})[live] == p[live];
    forall d | d in q && d != backup && q[d].origin.Some?
      ensures q[d].origin.value.dataset != live && (d != live ==> q[d].origin.value.dataset != backup)
    {
      assert d in p && (p - {backup})[d] == p[d];
    }
  }

  /**
   * The nine commands from destroying the live dataset on work, and nobody disturbs them but `zfs recv`: when the job is
   * reported done, it has created the live dataset.
   */
  predicate Refills(script: seq<Turn>, pool: Pool, live: string, newSnap: string) {
    && AllWork(script, 9) && (forall i :: 0 <= i < 9 && i != 4 ==> script[i].pool == map[])
    && var q := script[4].pool;
       && live in q && q[live].origin.None? && Find(q[live].snaps, newSnap).None? && q - {live} == pool - {live}
  }

  /** The same for the fourteen commands from the backup on. */
  predicate Streams(script: seq<Turn>, pool: Pool, live: string, backup: string, snap: string, newSnap: string) {
    && Calm(script, 5) && NewNames(pool, live, backup, snap)
    && var saved := BackedUp(pool, live, backup, snap);
       saved.Some? && Refills(script[5..], saved.value, live, newSnap)
  }

  /** The former contents are live again, and the backup is gone. */
  predicate Back(pool: Pool, live: string, backup: string, image: Image) {
    Contains(pool, live, image) && backup !in pool
  }

  /**
   * A command breaks after which `_standby` goes back: one from destroying the live dataset to the first snapshot of what
   * was received, or, once there is such a thing, changing its owner or restarting Postgres. The ten commands to follow
   * meet no disturbance and work.
   */
  predicate BreaksOff(script: seq<Turn>, k: nat, pool: Pool, live: string, backup: string, snap: string, newSnap: string) {
    && BreaksAt(script, k) && Calm(script[k + 1..], 10)
    && Calm(script, 2) && NewNames(pool, live, backup, snap)
    && (5 <= k < 14 || (k in {14, 16} && Streams(script, pool, live, backup, snap, newSnap)))
  }

  /** With the live dataset promoted, nothing depends on the backup any more. */
  lemma PromotedSetsFree(p: Pool, q: Pool, live: string, backup: string, snap: string)
    requires live !in p && backup in p && Cloneless(p, backup)
    requires Apply(p, Clone(backup, snap, live)) == Some(q)
    ensures Apply(q, Promote(live)).Some?
    ensures Apply(Apply(q, Promote(live)).value, Destroy(backup)).Some?
  {
    var r := Apply(q, Promote(live)).value;
    forall d | d in r && d != backup && r[d].origin.Some? ensures r[d].origin.value.dataset != backup {
      assert d != live ==> d in p && q[d] == p[d];
    }
  }

  /** The pool with what the command writes to the live dataset. */
  function Written(pool: Pool, live: string, script: seq<Turn>): Pool {
    if script != [] && live in pool then pool[live := pool[live].(contents := script[0].written)] else pool
  }

  /** The received dataset could have come up by then. */
  lemma StreamArrives(p: Pool, q: Pool, live: string)
    requires live in q && q[live].origin.None? && q - {live} == p - {live}
    ensures Plausible(live, true, p - {live}, q)
  {
    forall d | d != live ensures d in p <==> d in q {
      assert d in p <==> d in p - {live};
      assert d in q <==> d in q - {live};
    }
    forall d | d in p && d != live ensures q[d] == p[d] {
      assert (q - {live})[d] == (p - {live})[d];
    }
  }

  class ZfsClient {
    const dataset: string
    var pool: Pool
    var mounted: bool                // the live dataset is mounted at its mountpoint
    var receiving: bool              // a spawned `zfs recv` has not exited
    var script: seq<Turn>            // the surroundings of the commands to come; when it ends, the process dies

    constructor (dataset: string, pool: Pool, mounted: bool, script: seq<Turn>)
      ensures this.dataset == dataset && this.pool == pool && this.mounted == mounted && this.script == script && !receiving
    {
      this.dataset, this.pool, this.mounted, this.script, receiving := dataset, pool, mounted, script, false;
    }

    /** Other processes act, then the command is run; `before` is the pool that it finds. */
    method Exec(c: Command) returns (r: Outcome, ghost before: Pool)
      modifies `pool, `script
      ensures Plausible(dataset, receiving, old(pool), before)
      ensures r in {Succeeded, Failed, Died}
      ensures r.Succeeded? ==> Apply(before, c) == Some(pool)
      ensures !r.Succeeded? ==> pool == before
      ensures old(script) == [] ==> r.Died? && script == []
      ensures old(script) != [] ==>
        && script == old(script)[1..]
        && (r.Died? <==> old(script)[0].verdict.Dies?)
        && (r.Succeeded? <==> old(script)[0].verdict.Works? && Apply(before, c).Some?)
      ensures before == Found(dataset, receiving, old(pool), old(script))
      ensures forall touched :: dataset in touched && Touches(before, c) <= touched ==> Keeps(old(pool), pool, touched)
    {
      before := Found(dataset, receiving, pool, script);
      if script == [] {
        return Died, before;
      }
      var turn := script[0];
      script := script[1..];
      if Plausible(dataset, receiving, pool, turn.pool) {
        pool := turn.pool;
      }
      ExecKeeps(old(pool), before, c);
      match turn.verdict
      case Works =>
        var after := Apply(pool, c);
        if after.Some? {
          pool := after.value;
          r := Succeeded;
        } else {
          r := Failed;
        }
      case Breaks => r := Failed;
      case Dies => r := Died;
    }

    lemma ExecKeeps(p: Pool, q: Pool, c: Command)
      requires Plausible(dataset, receiving, p, q)
      ensures forall touched :: dataset in touched && Touches(q, c) <= touched ==>
        Keeps(p, q, touched) && (Apply(q, c).Some? ==> Keeps(p, Apply(q, c).value, touched))
    {
      forall touched | dataset in touched && Touches(q, c) <= touched
        ensures Keeps(p, q, touched) && (Apply(q, c).Some? ==> Keeps(p, Apply(q, c).value, touched))
      {
        DisturbedKeeps(dataset, receiving, p, q, c, touched);
      }
    }

    /**
     * `assertDataset`: create the dataset if need be, and remount it. A failed unmount is taken to mean that it was not
     * mounted, and everything under the mountpoint is removed. What that does to the contents is `Remaining`; since a
     * dataset that is still mounted cannot be mounted, no success hides a loss.
     */
    method AssertDataset() returns (r: Outcome)
      modifies `pool, `script, `mounted
      ensures r in {Succeeded, Failed, Died}
      ensures dataset in old(pool) ==>
        Contains(pool, dataset, Remaining(old(script), old(mounted), old(pool)[dataset].contents))
      ensures dataset in old(pool) && r.Succeeded? ==> Contains(pool, dataset, old(pool)[dataset].contents)
      ensures r.Succeeded? ==> dataset in pool && mounted
      ensures dataset in old(pool) && AllWork(old(script), 7) ==> r.Succeeded? && script == old(script)[7..]
      ensures dataset in old(pool) && Calm(old(script), 7) ==> pool == old(pool)
      ensures forall d :: d in old(pool) && d != dataset ==> d in pool && pool[d] == old(pool)[d]
    {
      r := ListOrCreate();
      if !r.Succeeded? {
        return;
      }
      r := Run("zfs unmount");
      if r.Died? {
        return;
      }
      if r.Succeeded? {
        mounted := false;
      }
      ghost var unmounted, was := script, mounted;
      r := Remake();
      if !was {
        EndsWell(r, unmounted, script, 5);
      }
    }

    /** The commands before unmounting. */
    method ListOrCreate() returns (r: Outcome)
      modifies `pool, `script, `mounted
      ensures r in {Succeeded, Failed, Died}
      ensures dataset in old(pool) ==> Contains(pool, dataset, old(pool)[dataset].contents) && mounted == old(mounted)
      ensures dataset in old(pool) ==> (r.Succeeded? <==> AllWork(old(script), 1))
      ensures dataset in old(pool) && r.Succeeded? ==> script == old(script)[1..]
      ensures dataset in old(pool) && Calm(old(script), 1) ==> pool == old(pool)
      ensures r.Succeeded? ==> dataset in pool
      ensures forall d :: d in old(pool) && d != dataset ==> d in pool && pool[d] == old(pool)[d]
    {
      r := Run("zfs list");
      EndsWell(r, old(script), script, 1);
      if r.Died? {
        return;
      }
      if r.Failed? || dataset !in pool {
        r := CreateDataset();
      }
    }

    /** The commands after unmounting. */
    method Remake() returns (r: Outcome)
      modifies `pool, `script, `mounted
      ensures r in {Succeeded, Failed, Died}
      ensures r.Succeeded? ==> !old(mounted) && mounted
      ensures dataset in old(pool) ==> dataset in pool
      ensures dataset in old(pool) ==>
        pool[dataset].contents ==
          if old(mounted) && |old(script)| > 3 && AllWork(old(script), 3)
          then (if old(script)[3].verdict.Works? then EMPTY else old(script)[3].written)
          else old(pool)[dataset].contents
      ensures !old(mounted) ==> Ends(r, old(script), script, 5)
      ensures !old(mounted) && Calm(old(script), 5) ==> pool == old(pool)
      ensures forall d :: d in old(pool) && d != dataset ==> d in pool && pool[d] == old(pool)[d]
    {
      r := RunAll(["zfs set mountpoint", "chown -R", "chmod 755"]);
      EndsWell(r, old(script), script, 3);
      if !r.Succeeded? {
        EndsEarly(r, old(script), script, 3, 2);
        return;
      }
      ghost var begun := script;
      r := RemoveFiles();
      EndsBoth(r, old(script), begun, script, 3, 1);
      if !r.Succeeded? {
        EndsEarly(r, old(script), script, 4, 1);
        return;
      }
      EndsWell(r, old(script), script, 4);
      begun := script;
      r := Mount();
      if !old(mounted) {
        EndsBoth(r, old(script), begun, script, 4, 1);
      }
    }

    /** A new dataset is not mounted. */
    method CreateDataset() returns (r: Outcome)
      modifies `pool, `script, `mounted
      ensures r in {Succeeded, Failed, Died}
      ensures dataset in old(pool) ==> !r.Succeeded? && Contains(pool, dataset, old(pool)[dataset].contents)
      ensures r.Succeeded? ==> dataset in pool && !mounted
      ensures !r.Succeeded? ==> mounted == old(mounted)
      ensures forall d :: d in old(pool) && d != dataset ==> d in pool && pool[d] == old(pool)[d]
    {
      ghost var before;
      r, before := Exec(Create(dataset));
      if r.Succeeded? {
        mounted := false;
      }
    }

    /** `rm -rf` under the mountpoint: if the dataset is mounted there, these are its files. */
    method RemoveFiles() returns (r: Outcome)
      modifies `pool, `script
      ensures Ends(r, old(script), script, 1)
      ensures !mounted && Calm(old(script), 1) ==> pool == old(pool)
      ensures dataset in old(pool) ==> dataset in pool
      ensures dataset in old(pool) && !(mounted && old(script) != []) ==> pool[dataset].contents == old(pool)[dataset].contents
      ensures dataset in old(pool) && mounted && old(script) != [] ==>
        pool[dataset].contents == if old(script)[0].verdict.Works? then EMPTY else old(script)[0].written
      ensures forall d :: d in old(pool) && d != dataset ==> d in pool && pool[d] == old(pool)[d]
    {
      var reached, left := script != [], EMPTY;
      if reached && !script[0].verdict.Works? {
        left := script[0].written;
      }
      r := Run("rm -rf mountpoint/*");
      if reached && mounted && dataset in pool {
        pool := pool[dataset := pool[dataset].(contents := left)];
      }
    }

    /** ZFS refuses to mount what is mounted. */
    method Mount() returns (r: Outcome)
      modifies `pool, `script, `mounted
      ensures r in {Succeeded, Failed, Died} && Plausible(dataset, receiving, old(pool), pool)
      ensures r.Succeeded? ==> !old(mounted) && mounted
      ensures !r.Succeeded? ==> mounted == old(mounted)
      ensures !old(mounted) ==> Ends(r, old(script), script, 1)
      ensures Calm(old(script), 1) ==> pool == old(pool)
    {
      r := Run("zfs mount");
      if r.Succeeded? {
        if mounted {
          r := Failed;
        } else {
          mounted := true;
        }
      }
    }

    /** A command that leaves all images alone. */
    method Run(what: string) returns (r: Outcome)
      modifies `pool, `script
      ensures r in {Succeeded, Failed, Died} && Plausible(dataset, receiving, old(pool), pool)
      ensures Ends(r, old(script), script, 1)
      ensures Calm(old(script), 1) ==> pool == old(pool)
    {
      ghost var before;
      r, before := Exec(Other(what));
    }

    /** A pipeline of such commands. */
    method RunAll(commands: seq<string>) returns (r: Outcome)
      modifies `pool, `script
      ensures Plausible(dataset, receiving, old(pool), pool)
      ensures Ends(r, old(script), script, |commands|)
      ensures Calm(old(script), |commands|) ==> pool == old(pool)
    {
      r := Succeeded;
      for i := 0 to |commands|
        invariant r.Succeeded? && Plausible(dataset, receiving, old(pool), pool)
        invariant Ends(Succeeded, old(script), script, i)
        invariant Calm(old(script), |commands|) ==> pool == old(pool)
      {
        ghost var begun, p := script, pool;
        EndsWell(Succeeded, old(script), script, i);
        r := Run(commands[i]);
        PlausibleOn(dataset, receiving, old(pool), p, pool);
        EndsBoth(r, old(script), begun, script, i, 1);
        if !r.Succeeded? {
          EndsEarly(r, old(script), script, i + 1, |commands| - i - 1);
          EndsWell(r, old(script), script, |commands|);
          return;
        }
      }
    }

    /**
     * `_backupDataset`: snapshot, clone and promote. On an error the callback is never made.
     * In the end the backup owns the snapshot; at every earlier point the live dataset is as it was.
     */
    method BackupDataset(backup: string, snapshotId: string, ghost image: Image) returns (r: Outcome)
      requires Contains(pool, dataset, image)
      modifies `pool, `script
      ensures r in {Succeeded, Stuck, Died}
      ensures Keeps(old(pool), pool, {dataset, backup})
      ensures r.Succeeded? ==> backup != dataset && Owns(pool, backup, snapshotId, image)
      ensures !r.Succeeded? ==> Contains(pool, dataset, image)
      ensures Calm(old(script), 2) && Find(old(pool)[dataset].snaps, snapshotId).None? && backup !in old(pool) ==>
        Ends(if r.Stuck? then Failed else r, old(script), script, 5)
      ensures Calm(old(script), 2) && NewNames(old(pool), dataset, backup, snapshotId) && r.Succeeded? ==>
        dataset in pool && Restorable(pool, dataset, backup)
      ensures Calm(old(script), 5) && NewNames(old(pool), dataset, backup, snapshotId) ==>
        BackedUp(old(pool), dataset, backup, snapshotId) == Some(pool)
    {
      r := CloneLive(backup, snapshotId, image);
      if r.Succeeded? {
        if Calm(old(script), 2) && NewNames(old(pool), dataset, backup, snapshotId) {
          ClonedIsTheOnlyClone(old(pool), dataset, backup, snapshotId);
        }
        ghost var begun := script;
        r := PromoteBackup(backup, snapshotId, image);
        if Ends(Succeeded, old(script), begun, 2) {
          EndsWell(Succeeded, old(script), begun, 2);
          EndsBoth(r, old(script), begun, script, 2, 3);
        }
      }
      if r.Failed? {
        r := Stuck;
      }
    }

    method SnapshotLive(snapshotId: string, ghost image: Image) returns (r: Outcome)
      requires Contains(pool, dataset, image)
      modifies `pool, `script
      ensures r in {Succeeded, Failed, Died} && Contains(pool, dataset, image)
      ensures Keeps(old(pool), pool, {dataset})
      ensures r.Succeeded? ==> Owns(pool, dataset, snapshotId, image)
      ensures Calm(old(script), 1) && Find(old(pool)[dataset].snaps, snapshotId).None? ==>
        r.Succeeded? && script == old(script)[1..] && Apply(old(pool), TakeSnapshot(dataset, snapshotId)) == Some(pool)
    {
      ghost var before;
      r, before := Exec(TakeSnapshot(dataset, snapshotId));
      if r.Succeeded? {
        SnapshotOwned(before, dataset, snapshotId);
      }
    }

    method CloneLive(backup: string, snapshotId: string, ghost image: Image) returns (r: Outcome)
      requires Contains(pool, dataset, image)
      modifies `pool, `script
      ensures r in {Succeeded, Failed, Died} && Contains(pool, dataset, image)
      ensures Keeps(old(pool), pool, {dataset, backup})
      ensures r.Succeeded? ==>
        backup != dataset && Owns(pool, dataset, snapshotId, image) && ClonedFrom(pool, backup, dataset, snapshotId)
      ensures Calm(old(script), 2) && Find(old(pool)[dataset].snaps, snapshotId).None? && backup !in old(pool) ==>
        && r.Succeeded? && Ends(r, old(script), script, 2)
        && Cloned(old(pool), dataset, backup, snapshotId) == Some(pool)
    {
      r := SnapshotLive(snapshotId, image);
      if !r.Succeeded? {
        return;
      }
      ghost var taken, q := pool, pool;
      r, q := Exec(Clone(dataset, snapshotId, backup));
      SnapshotStaysTrue(dataset, receiving, taken, q, snapshotId, image);
    }

    method PromoteBackup(backup: string, snapshotId: string, ghost image: Image) returns (r: Outcome)
      requires Contains(pool, dataset, image) && backup != dataset
      requires Owns(pool, dataset, snapshotId, image) && ClonedFrom(pool, backup, dataset, snapshotId)
      modifies `pool, `script
      ensures r in {Succeeded, Failed, Died}
      ensures Keeps(old(pool), pool, {dataset, backup})
      ensures r.Succeeded? ==> Owns(pool, backup, snapshotId, image)
      ensures !r.Succeeded? ==> Contains(pool, dataset, image)
      ensures Ends(r, old(script), script, 3)
      ensures r.Succeeded? && OnlyClone(old(pool), dataset, backup) ==> dataset in pool && Restorable(pool, dataset, backup)
      ensures Calm(old(script), 3) ==> Apply(old(pool), Promote(backup)) == Some(pool)
    {
      r := RunAll(["zfs set canmount=noauto", "zfs set mountpoint"]);
      ClonedSnapshotStays(dataset, receiving, old(pool), pool, backup, snapshotId, image);
      EndsWell(r, old(script), script, 2);
      if !r.Succeeded? {
        EndsEarly(r, old(script), script, 2, 1);
        return;
      }
      if OnlyClone(old(pool), dataset, backup) {
        OnlyCloneStays(dataset, receiving, old(pool), pool, backup);
      }
      ghost var begun := script;
      r := HandOver(backup, snapshotId, image);
      EndsBoth(r, old(script), begun, script, 2, 1);
    }

    method HandOver(backup: string, snapshotId: string, ghost image: Image) returns (r: Outcome)
      requires Contains(pool, dataset, image) && backup != dataset
      requires Owns(pool, dataset, snapshotId, image) && ClonedFrom(pool, backup, dataset, snapshotId)
      modifies `pool, `script
      ensures r in {Succeeded, Failed, Died}
      ensures Keeps(old(pool), pool, {dataset, backup})
      ensures r.Succeeded? ==> Owns(pool, backup, snapshotId, image)
      ensures !r.Succeeded? ==> Contains(pool, dataset, image)
      ensures Ends(r, old(script), script, 1)
      ensures r.Succeeded? && OnlyClone(old(pool), dataset, backup) ==> dataset in pool && Restorable(pool, dataset, backup)
      ensures Calm(old(script), 1) ==> Apply(old(pool), Promote(backup)) == Some(pool)
    {
      ghost var p, q := pool, pool;
      r, q := Exec(Promote(backup));
      ClonedSnapshotStays(dataset, receiving, p, q, backup, snapshotId, image);
      if OnlyClone(p, dataset, backup) && r.Succeeded? {
        OnlyCloneStays(dataset, receiving, p, q, backup);
        PromotedIsRestorable(q, pool, dataset, backup, snapshotId);
      }
      if r.Succeeded? {
        PromoteHandsOver(q, backup, dataset, snapshotId, image);
      }
    }

    /** `_receive`: the live dataset is destroyed and received anew. Whatever happens, the backup stays as it is. */
    method Receive(ghost backup: string) returns (r: Outcome)
      requires backup in pool && backup != dataset
      modifies this
      ensures r in {Succeeded, Failed, Died}
      ensures Spares(old(pool), pool, dataset, backup)
      ensures r.Succeeded? ==> !mounted
      ensures dataset in old(pool) && Restorable(old(pool), dataset, backup) ==> Ends(r, old(script), script, 5)
      ensures dataset in old(pool) && Restorable(old(pool), dataset, backup) && Calm(old(script), 4) && AllWork(old(script), 5)
              ==> pool == Found(dataset, true, old(pool) - {dataset}, old(script)[4..])
    {
      r := Vacate(backup);
      if !r.Succeeded? {
        if dataset in old(pool) && Restorable(old(pool), dataset, backup) {
          EndsEarly(r, old(script), script, 1, 4);
        }
        return;
      }
      ghost var begun, p := script, pool;
      r := Transfer(backup);
      SparesOn(old(pool), p, pool, dataset, backup);
      if dataset in old(pool) && Restorable(old(pool), dataset, backup) {
        EndsWell(Succeeded, old(script), begun, 1);
        EndsBoth(r, old(script), begun, script, 1, 4);
      }
      EndsWell(r, begun, script, 4);
    }

    /** The first command of `_receive`. */
    method Vacate(ghost backup: string) returns (r: Outcome)
      requires backup in pool && backup != dataset
      modifies `pool, `script, `mounted
      ensures r in {Succeeded, Failed, Died}
      ensures Spares(old(pool), pool, dataset, backup)
      ensures r.Succeeded? ==> !mounted && old(script) != [] && script == old(script)[1..]
      ensures dataset in old(pool) && Restorable(old(pool), dataset, backup) ==> Ends(r, old(script), script, 1)
      ensures r.Succeeded? && Calm(old(script), 1) ==> pool == old(pool) - {dataset}
    {
      ghost var before;
      r, before := Exec(Destroy(dataset));
      DisturbanceSpares(dataset, receiving, old(pool), before, backup);
      if r.Succeeded? {
        mounted := false;
        CommandSpares(before, Destroy(dataset), dataset, backup);
        SparesOn(old(pool), before, pool, dataset, backup);
      }
    }

    /** The commands of `_receive` after the live dataset is destroyed. */
    method Transfer(ghost backup: string) returns (r: Outcome)
      requires backup in pool && backup != dataset
      modifies `pool, `script, `receiving
      ensures Spares(old(pool), pool, dataset, backup)
      ensures Ends(r, old(script), script, 4)
      ensures Calm(old(script), 3) && AllWork(old(script), 4) ==>
        pool == Found(dataset, true, old(pool), old(script)[3..])
    {
      r := Run("rm -rf mountpoint/*");
      DisturbanceSpares(dataset, receiving, old(pool), pool, backup);
      EndsWell(r, old(script), script, 1);
      if !r.Succeeded? {
        EndsEarly(r, old(script), script, 1, 3);
        return;
      }
      ghost var begun, p := script, pool;
      receiving := true;
      r := Request(backup);
      SparesOn(old(pool), p, pool, dataset, backup);
      EndsBoth(r, old(script), begun, script, 1, 3);
    }

    /** While `zfs recv` waits: the server is set up, the stream asked for, and its job polled. */
    method Request(ghost backup: string) returns (r: Outcome)
      requires backup in pool && backup != dataset && receiving
      modifies `pool, `script
      ensures Spares(old(pool), pool, dataset, backup)
      ensures Ends(r, old(script), script, 3)
      ensures Calm(old(script), 2) && AllWork(old(script), 3) ==>
        pool == Found(dataset, true, old(pool), old(script)[2..])
    {
      r := RunAll(["listen for zfs send", "POST /backup"]);
      DisturbanceSpares(dataset, true, old(pool), pool, backup);
      EndsWell(r, old(script), script, 2);
      if !r.Succeeded? {
        EndsEarly(r, old(script), script, 2, 1);
        return;
      }
      ghost var begun, p, before := script, pool, pool;
      r, before := Exec(Other("poll the backup job"));
      DisturbanceSpares(dataset, true, p, pool, backup);
      SparesOn(old(pool), p, pool, dataset, backup);
      EndsBoth(r, old(script), begun, script, 2, 1);
    }

    /** `restore`. Once it returns, successful or not, the backup owns the snapshot of the former contents. */
    method Restore(backup: string, snapshotId: string, newSnapshotId: string, ghost image: Image) returns (r: Outcome)
      requires Contains(pool, dataset, image)
      modifies this
      ensures r in {Succeeded, Failed} ==> backup != dataset && Owns(pool, backup, snapshotId, image)
      ensures Keeps(old(pool), pool, {dataset, backup})
      ensures Held(pool, dataset, backup, snapshotId, image)
      ensures backup !in pool ==> Contains(pool, dataset, image)
      ensures Calm(old(script), 2) && AllWork(old(script), 5) && NewNames(old(pool), dataset, backup, snapshotId) ==>
        && Restorable(pool, dataset, backup)
        && (Ends(r, old(script), script, 14) || (r.Failed? && AllWork(old(script), 14)))
      ensures Streams(old(script), old(pool), dataset, backup, snapshotId, newSnapshotId) ==>
        r.Succeeded? && Arrived(pool, dataset, backup)
    {
      r := BackupDataset(backup, snapshotId, image);
      if Calm(old(script), 2) && NewNames(old(pool), dataset, backup, snapshotId) {
        EndsWell(if r.Stuck? then Failed else r, old(script), script, 5);
      }
      if !r.Succeeded? {
        return;
      }
      ghost var begun := script;
      r := Refill(backup, newSnapshotId);
      if Calm(old(script), 2) && AllWork(old(script), 5) && NewNames(old(pool), dataset, backup, snapshotId) {
        if Ends(r, begun, script, 9) {
          EndsBoth(r, old(script), begun, script, 5, 9);
        } else {
          WorkBoth(old(script), begun, 5, 9);
        }
      }
    }

    /** The part of `restore` that follows the backup. */
    method Refill(ghost backup: string, newSnapshotId: string) returns (r: Outcome)
      requires backup in pool && backup != dataset
      modifies this
      ensures r in {Succeeded, Failed, Died}
      ensures Spares(old(pool), pool, dataset, backup)
      ensures dataset in old(pool) && Restorable(old(pool), dataset, backup) ==>
        Ends(r, old(script), script, 9) || (r.Failed? && AllWork(old(script), 9))
      ensures dataset in old(pool) && Restorable(old(pool), dataset, backup)
              && Refills(old(script), old(pool), dataset, newSnapshotId) ==>
        r.Succeeded? && Arrived(pool, dataset, backup)
    {
      r := Receive(backup);
      if !r.Succeeded? {
        if dataset in old(pool) && Restorable(old(pool), dataset, backup) {
          EndsEarly(r, old(script), script, 5, 4);
          EndsWell(r, old(script), script, 5);
        }
        return;
      }
      ghost var begun, p := script, pool;
      if dataset in old(pool) && Restorable(old(pool), dataset, backup) {
        EndsWell(r, old(script), begun, 5);
        if Refills(old(script), old(pool), dataset, newSnapshotId) {
          StreamArrives(old(pool), old(script)[4].pool, dataset);
        }
      }
      r := MountReceived(backup, newSnapshotId);
      SparesOn(old(pool), p, pool, dataset, backup);
      if dataset in old(pool) && Restorable(old(pool), dataset, backup) {
        if Ends(r, begun, script, 4) {
          EndsBoth(r, old(script), begun, script, 5, 4);
        } else {
          WorkBoth(old(script), begun, 5, 4);
        }
      }
    }

    /** The commands after a successful transfer. */
    method MountReceived(ghost backup: string, newSnapshotId: string) returns (r: Outcome)
      requires backup in pool && backup != dataset && !mounted
      modifies `pool, `script, `mounted
      ensures r in {Succeeded, Failed, Died}
      ensures Spares(old(pool), pool, dataset, backup)
      ensures Ends(r, old(script), script, 4) || (r.Failed? && AllWork(old(script), 4))
      ensures Calm(old(script), 4) && dataset in old(pool) && Find(old(pool)[dataset].snaps, newSnapshotId).None? ==>
        r.Succeeded? && dataset in pool && pool[dataset].origin == old(pool)[dataset].origin
    {
      r := MountIt(backup);
      EndsWell(r, old(script), script, 3);
      if !r.Succeeded? {
        EndsEarly(r, old(script), script, 3, 1);
        return;
      }
      ghost var begun, p := script, pool;
      r := SnapshotReceived(backup, newSnapshotId);
      SparesOn(old(pool), p, pool, dataset, backup);
      if Ends(r, begun, script, 1) {
        EndsBoth(r, old(script), begun, script, 3, 1);
      } else {
        WorkBoth(old(script), begun, 3, 1);
      }
    }

    /** The last of them. */
    method SnapshotReceived(ghost backup: string, newSnapshotId: string) returns (r: Outcome)
      requires backup in pool && backup != dataset
      modifies `pool, `script
      ensures r in {Succeeded, Failed, Died}
      ensures Spares(old(pool), pool, dataset, backup)
      ensures Ends(r, old(script), script, 1) || (r.Failed? && AllWork(old(script), 1))
      ensures Calm(old(script), 1) && dataset in old(pool) && Find(old(pool)[dataset].snaps, newSnapshotId).None? ==>
        r.Succeeded? && dataset in pool && pool[dataset].origin == old(pool)[dataset].origin
    {
      ghost var before;
      r, before := Exec(TakeSnapshot(dataset, newSnapshotId));
      DisturbanceSpares(dataset, receiving, old(pool), before, backup);
      if r.Succeeded? {
        CommandSpares(before, TakeSnapshot(dataset, newSnapshotId), dataset, backup);
        SparesOn(old(pool), before, pool, dataset, backup);
      }
    }

    /** All of these but the last, a snapshot. */
    method MountIt(ghost backup: string) returns (r: Outcome)
      requires backup in pool && backup != dataset && !mounted
      modifies `pool, `script, `mounted
      ensures Spares(old(pool), pool, dataset, backup)
      ensures Ends(r, old(script), script, 3)
      ensures Calm(old(script), 3) ==> pool == old(pool)
    {
      r := RunAll(["zfs set mountpoint", "zfs set canmount=noauto"]);
      DisturbanceSpares(dataset, receiving, old(pool), pool, backup);
      EndsWell(r, old(script), script, 2);
      if !r.Succeeded? {
        EndsEarly(r, old(script), script, 2, 1);
        return;
      }
      ghost var begun, p := script, pool;
      r := Mount();
      DisturbanceSpares(dataset, receiving, p, pool, backup);
      SparesOn(old(pool), p, pool, dataset, backup);
      EndsBoth(r, old(script), begun, script, 2, 1);
    }

    /** The commands that `restoreDataset` ends with: property settings and mounting of the live dataset. */
    method Remount(ghost image: Image) returns (r: Outcome)
      requires Contains(pool, dataset, image)
      modifies `pool, `script, `mounted
      ensures r in {Succeeded, Failed, Died} && Contains(pool, dataset, image)
      ensures Keeps(old(pool), pool, {dataset})
      ensures forall d :: d in pool && d != dataset ==> d in old(pool)
      ensures !old(mounted) ==> Ends(r, old(script), script, 6)
      ensures r.Succeeded? ==> mounted
    {
      r := RunAll(["zfs set canmount=noauto", "zfs set mountpoint", "mkdir -p", "chown -R", "chmod 755"]);
      EndsWell(r, old(script), script, 5);
      if !r.Succeeded? {
        EndsEarly(r, old(script), script, 5, 1);
        return;
      }
      ghost var begun := script;
      r := Mount();
      if !old(mounted) {
        EndsBoth(r, old(script), begun, script, 5, 1);
      }
    }

    /** The first two commands of `restoreDataset`. */
    method CloneBackup(backup: string, snapshotId: string, ghost image: Image) returns (r: Outcome)
      requires backup != dataset && Owns(pool, backup, snapshotId, image)
      modifies `pool, `script, `mounted
      ensures Keeps(old(pool), pool, {dataset, backup})
      ensures Owns(pool, backup, snapshotId, image)
      ensures r.Succeeded? ==> Contains(pool, dataset, image) && ClonedFrom(pool, dataset, backup, snapshotId)
      ensures Calm(old(script), 2) && Cloneless(old(pool), dataset) ==>
        && r.Succeeded? && script == old(script)[2..] && !mounted
        && Apply(old(pool) - {dataset}, Clone(backup, snapshotId, dataset)) == Some(pool)
    {
      r := DestroyLive(backup);
      if r.Died? {
        return;
      }
      ghost var before;
      r, before := Exec(Clone(backup, snapshotId, dataset));
    }

    /** An error is ignored by the caller. */
    method DestroyLive(ghost backup: string) returns (r: Outcome)
      requires backup in pool && backup != dataset
      modifies `pool, `script, `mounted
      ensures r in {Succeeded, Failed, Died}
      ensures Keeps(old(pool), pool, {dataset}) && backup in pool && pool[backup] == old(pool)[backup]
      ensures Calm(old(script), 1) && Cloneless(old(pool), dataset) ==>
        !r.Died? && script == old(script)[1..] && !mounted && pool == old(pool) - {dataset}
    {
      ghost var before;
      r, before := Exec(Destroy(dataset));
      if dataset !in pool {
        mounted := false;
      }
    }

    /** Its third: hand the snapshot over. */
    method PromoteLive(backup: string, snapshotId: string, ghost image: Image) returns (r: Outcome)
      requires backup != dataset && Owns(pool, backup, snapshotId, image)
      requires Contains(pool, dataset, image) && ClonedFrom(pool, dataset, backup, snapshotId)
      modifies `pool, `script
      ensures r in {Succeeded, Failed, Died} && Contains(pool, dataset, image) && backup in pool
      ensures Keeps(old(pool), pool, {dataset, backup})
      ensures !r.Succeeded? ==> Owns(pool, backup, snapshotId, image)
      ensures r.Succeeded? ==> Owns(pool, dataset, snapshotId, image) && ClonedFrom(pool, backup, dataset, snapshotId)
      ensures Calm(old(script), 1) && Apply(old(pool), Promote(dataset)).Some? ==>
        r.Succeeded? && script == old(script)[1..] && Apply(old(pool), Promote(dataset)) == Some(pool)
    {
      ghost var before;
      r, before := Exec(Promote(dataset));
      if r.Succeeded? {
        PromoteHandsOver(before, dataset, backup, snapshotId, image);
      }
    }

    /** Third and fourth: the backup is destroyed only when the live dataset owns the snapshot; until then it stays. */
    method ReplaceBackup(backup: string, snapshotId: string, ghost image: Image) returns (r: Outcome)
      requires backup != dataset && Owns(pool, backup, snapshotId, image)
      requires Contains(pool, dataset, image) && ClonedFrom(pool, dataset, backup, snapshotId)
      modifies `pool, `script
      ensures Contains(pool, dataset, image)
      ensures Keeps(old(pool), pool, {dataset, backup})
      ensures backup !in pool ==> Owns(pool, dataset, snapshotId, image)
      ensures r.Succeeded? ==> backup !in pool
      ensures Calm(old(script), 2) && Apply(old(pool), Promote(dataset)).Some?
              && Apply(Apply(old(pool), Promote(dataset)).value, Destroy(backup)).Some?
              ==> r.Succeeded? && script == old(script)[2..]
    {
      r := PromoteLive(backup, snapshotId, image);
      if !r.Succeeded? {
        return;
      }
      ghost var p := pool;
      ghost var before;
      r, before := Exec(Destroy(backup));
      ClonedSnapshotStays(dataset, receiving, p, before, backup, snapshotId, image);
    }

    /** `restoreDataset`: the live dataset becomes a clone of the backup, is promoted, and only then the backup is destroyed. */
    method RestoreDataset(backup: string, snapshotId: string, ghost image: Image) returns (r: Outcome)
      requires backup != dataset && Owns(pool, backup, snapshotId, image)
      modifies `pool, `script, `mounted
      ensures Keeps(old(pool), pool, {dataset, backup})
      ensures Held(pool, dataset, backup, snapshotId, image)
      ensures backup !in pool ==> Contains(pool, dataset, image)
      ensures r.Succeeded? ==> Contains(pool, dataset, image) && backup !in pool && mounted
      ensures Calm(old(script), 10) && Restorable(old(pool), dataset, backup) ==> r.Succeeded?
    {
      r := CloneBackup(backup, snapshotId, image);
      if !r.Succeeded? {
        return;
      }
      if Calm(old(script), 10) && Restorable(old(pool), dataset, backup) {
        PromotedSetsFree(old(pool) - {dataset}, pool, dataset, backup, snapshotId);
      }
      r := ReplaceBackup(backup, snapshotId, image);
      if !r.Succeeded? {
        return;
      }
      ghost var begun := script;
      r := Remount(image);
      if Calm(old(script), 10) && Restorable(old(pool), dataset, backup) {
        EndsWell(r, begun, script, 6);
      }
    }

    /**
     * A step that may write to the live dataset: configuration files, or Postgres itself once it is started. Nothing but
     * what the live dataset contains is changed by it.
     */
    method Write(what: string) returns (r: Outcome)
      modifies `pool, `script
      ensures Ends(r, old(script), script, 1)
      ensures forall backup :: backup != dataset ==>
        Spares(old(pool), pool, dataset, backup) && (Arrived(old(pool), dataset, backup) ==> Arrived(pool, dataset, backup))
      ensures Keeps(old(pool), pool, {dataset}) && (dataset in old(pool) ==> dataset in pool)
      ensures old(script) != [] && old(script)[0].pool == map[] ==> pool == Written(old(pool), dataset, old(script))
      ensures dataset in old(pool) && old(script) != [] ==> Contains(pool, dataset, old(script)[0].written)
    {
      var begun, image := script != [], EMPTY;
      if begun {
        image := script[0].written;
      }
      ghost var before;
      r, before := Exec(Other(what));
      if dataset in pool && begun {
        pool := pool[dataset := pool[dataset].(contents := image)];
      }
      forall backup | backup != dataset
        ensures Spares(old(pool), pool, dataset, backup)
        ensures Arrived(old(pool), dataset, backup) ==> Arrived(pool, dataset, backup)
      {
        WriteSpares(old(pool), before, old(script), backup);
      }
    }

    lemma WriteSpares(p: Pool, q: Pool, script: seq<Turn>, backup: string)
      requires Plausible(dataset, receiving, p, q) && backup != dataset
      ensures Spares(p, Written(q, dataset, script), dataset, backup)
      ensures Arrived(p, dataset, backup) ==> Arrived(Written(q, dataset, script), dataset, backup)
    {
      var r := Written(q, dataset, script);
      DisturbanceSpares(dataset, receiving, p, q, backup);
      forall d | d in r ensures d in q && r[d].origin == q[d].origin && (d != dataset ==> (q - {dataset})[d] == r[d]) {
      }
    }

    /**
     * `_standby`, from the failed attempt to start as a standby on. The former contents are never lost before Postgres
     * has restarted on what was received; and if it does not restart, they come back or stay in the backup.
     */
    method StandbyByRestore(backup: string, snapshotId: string, newSnapshotId: string, ghost image: Image)
      returns (r: Outcome, restarted: bool)
      requires Contains(pool, dataset, image)
      modifies this
      ensures Keeps(old(pool), pool, {dataset, backup})
      ensures !restarted ==> Held(pool, dataset, backup, snapshotId, image)
      ensures !restarted && backup !in pool ==> Contains(pool, dataset, image)
      ensures r.Succeeded? ==> restarted && backup !in pool
      ensures forall k: nat :: BreaksOff(old(script), k, old(pool), dataset, backup, snapshotId, newSnapshotId) ==>
        r.Failed? && !restarted && Back(pool, dataset, backup, image)
      ensures Streams(old(script), old(pool), dataset, backup, snapshotId, newSnapshotId) && AllWork(old(script), 18) ==>
        r.Succeeded?
    {
      restarted := false;
      r := Restore(backup, snapshotId, newSnapshotId, image);
      RestoredThen(old(script), script, r);
      if r.Stuck? || r.Died? {
        return;
      }
      r, restarted := Conclude(r, backup, snapshotId, image);
    }

    /** The part that follows a restore, successful or not. */
    method Conclude(restored: Outcome, backup: string, snapshotId: string, ghost image: Image)
      returns (r: Outcome, restarted: bool)
      requires restored in {Succeeded, Failed}
      requires backup != dataset && Owns(pool, backup, snapshotId, image)
      modifies `pool, `script, `mounted
      ensures Keeps(old(pool), pool, {dataset, backup})
      ensures !restarted ==> Held(pool, dataset, backup, snapshotId, image)
      ensures !restarted && backup !in pool ==> Contains(pool, dataset, image)
      ensures r.Succeeded? ==> restored.Succeeded? && restarted && backup !in pool
      ensures restored.Failed? && Calm(old(script), 10) && Restorable(old(pool), dataset, backup) ==>
        r.Failed? && !restarted && Back(pool, dataset, backup, image)
      ensures restored.Succeeded? && Restorable(old(pool), dataset, backup) ==>
        forall k: nat | k in {0, 2} && BreaksAt(old(script), k) && Calm(old(script)[k + 1..], 10) ::
          r.Failed? && !restarted && Back(pool, dataset, backup, image)
      ensures restored.Succeeded? && AllWork(old(script), 4) && Arrived(old(pool), dataset, backup) ==> r.Succeeded?
    {
      restarted, r := false, restored;
      if restored.Succeeded? {
        r := Run("chown -R datadir");
        if r.Died? {
          return;
        }
        if Restorable(old(pool), dataset, backup) {
          RestorableStays(dataset, receiving, old(pool), pool, backup);
        }
      }
      if r.Failed? {
        r := RestoreDataset(backup, snapshotId, image);
        return if r.Died? then Died else Failed, restarted;
      }
      r, restarted := StartReceived(backup, snapshotId, image);
    }

    /** The part that follows a restore that succeeded. */
    method StartReceived(backup: string, snapshotId: string, ghost image: Image) returns (r: Outcome, restarted: bool)
      requires backup != dataset && Owns(pool, backup, snapshotId, image)
      modifies `pool, `script, `mounted
      ensures Keeps(old(pool), pool, {dataset, backup})
      ensures !restarted ==> Held(pool, dataset, backup, snapshotId, image)
      ensures !restarted && backup !in pool ==> Contains(pool, dataset, image)
      ensures r.Succeeded? ==> restarted && backup !in pool
      ensures Restorable(old(pool), dataset, backup) && BreaksAt(old(script), 1) && Calm(old(script)[2..], 10) ==>
        r.Failed? && !restarted && Back(pool, dataset, backup, image)
      ensures AllWork(old(script), 3) && Arrived(old(pool), dataset, backup) ==> r.Succeeded?
    {
      restarted := false;
      ghost var p := pool;
      r := Write("write recovery.conf and postgresql.conf");
      EndsWell(r, old(script), script, 1);
      if !r.Succeeded? {
        return;
      }
      ghost var begun, q := script, pool;
      r := Write("restart Postgres");
      SparesOn(p, q, pool, dataset, backup);
      EndsBoth(r, old(script), begun, script, 1, 1);
      EndsWell(r, old(script), script, 2);
      if BreaksAt(old(script), 1) {
        EndsThere(r, old(script), script, 2, 1);
      }
      if r.Died? {
        return;
      }
      if r.Failed? {
        r := RestoreDataset(backup, snapshotId, image);
        return if r.Died? then Died else Failed, restarted;
      }
      restarted := true;
      r := DestroyBackup(backup);
    }

    /** The last command of `_standby`. */
    method DestroyBackup(backup: string) returns (r: Outcome)
      requires backup != dataset
      modifies `pool, `script
      ensures r in {Succeeded, Failed, Died} && Keeps(old(pool), pool, {dataset, backup})
      ensures r.Succeeded? ==> backup !in pool
      ensures AllWork(old(script), 1) && backup in old(pool) && Arrived(old(pool), dataset, backup) ==> r.Succeeded?
    {
      ghost var before;
      r, before := Exec(Destroy(backup));
      DisturbanceSpares(dataset, receiving, old(pool), before, backup);
      if Arrived(old(pool), dataset, backup) {
        assert Restorable(before, dataset, backup) && before[dataset].origin.None?;
        forall d | d in before && d != dataset ensures (before - {dataset})[d] == before[d] {
        }
      }
    }
  }

  /** One life of the manager that makes a standby: the names it comes up with, and the surroundings until it dies. */
  datatype Attempt = Attempt(backup: string, snapshotId: string, newSnapshotId: string, script: seq<Turn>)

  /** The configuration cannot be written, nobody disturbs that, and the restore goes well. */
  predicate RestoresInstead(live: string, pool: Pool, attempt: Attempt) {
    && live in pool && Calm(attempt.script, 7) && BreaksAt(attempt.script, 7) && attempt.script[7].pool == map[]
    && AllWork(attempt.script[8..], 18)
    && Streams(attempt.script[8..], Written(pool, live, attempt.script[7..]), live, attempt.backup, attempt.snapshotId,
               attempt.newSnapshotId)
  }

  /**
   * `_standby` in one life of the manager: the dataset is asserted, the configuration written and Postgres restarted; if
   * one of these two does not work, restored. Nothing but the live dataset and this attempt's own backup is touched.
   */
  method Try(client: ZfsClient, attempt: Attempt) returns (r: Outcome, restarted: bool)
    modifies client
    ensures Keeps(old(client.pool), client.pool, {client.dataset, attempt.backup})
    ensures r.Succeeded? ==> restarted
    ensures client.dataset in old(client.pool) && AllWork(attempt.script, 9) ==> r.Succeeded?
    ensures RestoresInstead(client.dataset, old(client.pool), attempt) ==> r.Succeeded? && attempt.backup !in client.pool
  {
    client.script := attempt.script;
    restarted := false;
    r := client.AssertDataset();
    if !r.Succeeded? {
      return;
    }
    ghost var begun := client.script;
    r := client.Write("write recovery.conf and postgresql.conf");
    EndsWell(r, begun, client.script, 1);
    if r.Succeeded? {
      ghost var written := client.script;
      r := client.Write("restart Postgres");
      EndsWell(r, written, client.script, 1);
      if r.Succeeded? {
        restarted := true;
        return;
      }
    }
    if r.Failed? {
      ghost var image := client.pool[client.dataset].contents;
      r, restarted := client.StandbyByRestore(attempt.backup, attempt.snapshotId, attempt.newSnapshotId, image);
    }
  }

  /** No attempt has this backup's name: they are made up anew each time. */
  predicate AllOther(attempts: seq<Attempt>, backup: string) {
    forall i :: 0 <= i < |attempts| ==> attempts[i].backup != backup
  }

  /**
   * An attempt to restore, and any number of later ones, each ending anywhere. If the first does not restart Postgres,
   * the former contents are either still the live ones when it ends, or saved in its backup; and what is saved then stays
   * saved through all later attempts.
   */
  method RestoreRepeatedly(client: ZfsClient, first: Attempt, later: seq<Attempt>, ghost image: Image)
    returns (restarted: bool, ghost between: Pool)
    requires Contains(client.pool, client.dataset, image)
    requires first.backup != client.dataset && AllOther(later, first.backup)
    modifies client
    ensures !restarted ==> Held(between, client.dataset, first.backup, first.snapshotId, image)
    ensures Owns(between, first.backup, first.snapshotId, image) ==>
      Owns(client.pool, first.backup, first.snapshotId, image)
    ensures forall other, snap, i ::
      (Owns(old(client.pool), other, snap, i)
       && other != client.dataset && other != first.backup && AllOther(later, other)) ==> Owns(client.pool, other, snap, i)
  {
    client.script := first.script;
    var r;
    r, restarted := client.StandbyByRestore(first.backup, first.snapshotId, first.newSnapshotId, image);
    between := client.pool;
    for n := 0 to |later|
      invariant forall d :: d in between && d != client.dataset && AllOther(later, d) ==>
        d in client.pool && client.pool[d].snaps == between[d].snaps
    {
      var outcome, again := Try(client, later[n]);
    }
  }

  /** A dataset that cannot be unmounted loses its contents, and the call does not succeed. */
  method LosingRun() returns (client: ZfsClient, r: Outcome)
    ensures !r.Succeeded? && Contains(client.pool, "live", EMPTY)
    ensures fresh(client)
  {
    var turn := Turn(map[], Works, EMPTY);
    var script := [turn, turn.(verdict := Breaks), turn, turn, turn, turn, turn];
    client := new ZfsClient("live", map["live" := Dataset(1, [], None)], true, script);
    assert RemovalReached(script, true) && Remaining(script, true, 1) == EMPTY;
    r := client.AssertDataset();
  }

  /** `zfs recv` creates the live dataset, and Postgres does not restart on it: the premises of going back can be met. */
  lemma RestartCanBreakOff(pool: Pool, live: string, backup: string, snap: string, newSnap: string, stream: Image)
    returns (script: seq<Turn>)
    requires NewNames(pool, live, backup, snap)
    ensures BreaksOff(script, 16, pool, live, backup, snap, newSnap)
  {
    ClonedIsTheOnlyClone(pool, live, backup, snap);
    var q := Cloned(pool, live, backup, snap).value;
    SnapshotOwned(pool, live, snap);
    var saved := BackedUp(pool, live, backup, snap).value;
    var arrived := saved[live := Dataset(stream, [], None)];
    assert arrived - {live} == saved - {live};
    var quiet := Turn(map[], Works, EMPTY);
    script := seq(27, i => if i == 9 then quiet.(pool := arrived) else if i == 16 then quiet.(verdict := Breaks) else quiet);
  }
}
