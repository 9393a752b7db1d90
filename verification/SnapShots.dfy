/** Snapshot retention: lib/snapShotter.js, and the choice of the snapshot to send in lib/backupSender.js. */
module SnapShots {
  import opened Wrappers
  import opened Sequences
  import opened Numbers

  /** A snapshot that Manatee made is named by its creation time in milliseconds: exactly 13 digits. */
  predicate IsTimestamp(name: string) {
    |name| == 13 && forall i :: 0 <= i < 13 ==> '0' <= name[i] <= '9'
  }

  lemma TimestampsAreDigits(name: string)
    ensures IsTimestamp(name) <==> |name| == 13 && Digits(name)
  {
  }

  /** The names that pass the filter, in order. */
  function Timestamps(names: seq<string>): seq<string> {
    if names == [] then []
    else (if IsTimestamp(names[0]) then [names[0]] else []) + Timestamps(names[1..])
  }

  /** The names that are not in `gone`, in order. */
  function Keep(names: seq<string>, gone: set<string>): seq<string> {
    if names == [] then []
    else (if names[0] in gone then [] else [names[0]]) + Keep(names[1..], gone)
  }

  // --- Lists of names

  lemma {:induction false} TimestampsSum(a: seq<string>, b: seq<string>)
    ensures Timestamps(a + b) == Timestamps(a) + Timestamps(b)
  {
    if a == [] {
      assert a + b == b;
    } else {
      assert (a + b)[1..] == a[1..] + b;
      TimestampsSum(a[1..], b);
    }
  }

  lemma {:induction false} TimestampsAre(names: seq<string>, x: string)
    ensures x in Timestamps(names) <==> x in names && IsTimestamp(x)
  {
    if names != [] {
      TimestampsAre(names[1..], x);
    }
  }

  lemma {:induction false} TimestampsDistinct(names: seq<string>)
    requires Distinct(names)
    ensures Distinct(Timestamps(names))
  {
    if names != [] {
      TimestampsDistinct(names[1..]);
      TimestampsAre(names[1..], names[0]);
    }
  }

  lemma {:induction false} KeepSum(a: seq<string>, b: seq<string>, gone: set<string>)
    ensures Keep(a + b, gone) == Keep(a, gone) + Keep(b, gone)
  {
    if a == [] {
      assert a + b == b;
    } else {
      assert (a + b)[1..] == a[1..] + b;
      KeepSum(a[1..], b, gone);
    }
  }

  lemma {:induction false} KeepTwice(names: seq<string>, gone: set<string>, more: set<string>)
    ensures Keep(Keep(names, gone), more) == Keep(names, gone + more)
  {
    if names != [] {
      KeepTwice(names[1..], gone, more);
      KeepSum(if names[0] in gone then [] else [names[0]], Keep(names[1..], gone), more);
    }
  }

  lemma {:induction false} KeepAll(names: seq<string>, gone: set<string>)
    requires forall x :: x in gone ==> x !in names
    ensures Keep(names, gone) == names
  {
    if names != [] {
      KeepAll(names[1..], gone);
    }
  }

  lemma {:induction false} KeepIs(names: seq<string>, gone: set<string>, x: string)
    ensures x in Keep(names, gone) <==> x in names && x !in gone
  {
    if names != [] {
      KeepIs(names[1..], gone, x);
    }
  }

  lemma {:induction false} KeepDistinct(names: seq<string>, gone: set<string>)
    requires Distinct(names)
    ensures Distinct(Keep(names, gone))
  {
    if names != [] {
      KeepDistinct(names[1..], gone);
      KeepIs(names[1..], gone, names[0]);
    }
  }

  /** Removing one of several distinct names leaves one timestamp less, or as many. */
  lemma {:induction false} OneGone(names: seq<string>, x: string)
    requires Distinct(names)
    ensures |Timestamps(Keep(names, {x}))| == |Timestamps(names)| - (if x in names && IsTimestamp(x) then 1 else 0)
  {
    if names != [] {
      OneGone(names[1..], x);
      TimestampsSum(if names[0] in {x} then [] else [names[0]], Keep(names[1..], {x}));
    }
  }

  lemma {:induction false} KeepCounts(names: seq<string>, gone: set<string>)
    requires Distinct(names) && forall x :: x in gone ==> x in Timestamps(names)
    ensures |Timestamps(Keep(names, gone))| == |Timestamps(names)| - |gone|
  {
    if names == [] {
      assert gone == {};
    } else {
      var rest := gone - {names[0]};
      TimestampsAre(names, names[0]);
      forall x | x in rest ensures x in Timestamps(names[1..]) {
        TimestampsAre(names, x);
        TimestampsAre(names[1..], x);
      }
      KeepCounts(names[1..], rest);
      KeepSame(names[1..], gone, rest);
      TimestampsSum(if names[0] in gone then [] else [names[0]], Keep(names[1..], gone));
      assert names[0] in gone ==> gone == rest + {names[0]};
      assert names[0] !in gone ==> gone == rest;
    }
  }

  lemma {:induction false} KeepSame(names: seq<string>, a: set<string>, b: set<string>)
    requires forall x :: x in names ==> (x in a <==> x in b)
    ensures Keep(names, a) == Keep(names, b)
  {
    if names != [] {
      KeepSame(names[1..], a, b);
    }
  }

  // --- The daemon

  /** How an attempt to delete ends. `Dies` stands for the daemon being killed before it. */
  datatype Attempt = Deletes | Fails | Dies

  /** What happens around one listed snapshot: first others are created, then the attempt, if one is made. */
  datatype Turn = Turn(created: seq<string>, attempt: Attempt)

  datatype Outcome = Finished | Exceeded | NothingDeleted | Killed

  /** The deletions that bring the listed snapshots down to the number to keep. */
  function Excess(listed: nat, keep: nat): nat {
    if listed <= keep then 0 else listed - keep
  }

  class SnapShotter {
    const snapshotNumber: nat
    /** All snapshots of the dataset, oldest first. */
    var snapshots: seq<string>

    ghost predicate Valid()
      reads this
    {
      snapshotNumber > 0 && Distinct(snapshots)
    }

    /** A number of 0, or none, stands for 10. */
    constructor (snapshotNumber: Option<nat>, snapshots: seq<string>)
      requires Distinct(snapshots)
      ensures Valid() && this.snapshots == snapshots
      ensures this.snapshotNumber == if snapshotNumber in {None, Some(0)} then 10 else snapshotNumber.value
    {
      this.snapshotNumber := if snapshotNumber.None? || snapshotNumber.value == 0 then 10 else snapshotNumber.value;
      this.snapshots := snapshots;
    }

    /** ZFS refuses a second snapshot of the same name; the error is only logged. */
    method Create(name: string)
      requires Valid()
      modifies `snapshots
      ensures Valid()
      ensures snapshots == if name in old(snapshots) then old(snapshots) else old(snapshots) + [name]
    {
      if name !in snapshots {
        snapshots := snapshots + [name];
      }
    }

    method CreateAll(names: seq<string>) returns (ghost added: seq<string>)
      requires Valid()
      modifies `snapshots
      ensures Valid() && snapshots == old(snapshots) + added
      ensures |Timestamps(snapshots)| >= |Timestamps(old(snapshots))|
      ensures forall x :: x in added ==> x in names
      ensures (forall x :: x in names ==> x in snapshots) && (names == [] ==> added == [])
    {
      added := [];
      for i := 0 to |names|
        invariant Valid() && snapshots == old(snapshots) + added
        invariant (forall x :: x in added ==> x in names) && (i == 0 ==> added == [])
        invariant forall j :: 0 <= j < i ==> names[j] in snapshots
      {
        ghost var before := snapshots;
        Create(names[i]);
        added := snapshots[|old(snapshots)|..];
      }
      TimestampsSum(old(snapshots), added);
    }

    /** The listing of `_getSnapshots`, with the number of well-formed names that were passed over. */
    method List() returns (listed: seq<string>, ignored: nat)
      requires Valid()
      ensures listed == Timestamps(snapshots) && Distinct(listed)
      ensures |listed| + ignored == |snapshots|
    {
      listed, ignored := [], 0;
      for i := 0 to |snapshots|
        invariant listed == Timestamps(snapshots[..i]) && |listed| + ignored == i
      {
        assert snapshots[..i + 1] == snapshots[..i] + [snapshots[i]];
        TimestampsSum(snapshots[..i], [snapshots[i]]);
        if IsTimestamp(snapshots[i]) {
          listed := listed + [snapshots[i]];
        } else {
          ignored := ignored + 1;
        }
      }
      assert snapshots[..|snapshots|] == snapshots;
      TimestampsDistinct(snapshots);
    }

    method Delete(name: string)
      requires Valid()
      modifies `snapshots
      ensures Valid() && snapshots == Keep(old(snapshots), {name})
      ensures |Timestamps(snapshots)| ==
        |Timestamps(old(snapshots))| - (if name in old(snapshots) && IsTimestamp(name) then 1 else 0)
    {
      KeepDistinct(snapshots, {name});
      OneGone(snapshots, name);
      var kept: seq<string> := [];
      for i := 0 to |snapshots|
        invariant snapshots == old(snapshots)
        invariant kept == Keep(snapshots[..i], {name})
      {
        assert snapshots[..i + 1] == snapshots[..i] + [snapshots[i]];
        KeepSum(snapshots[..i], [snapshots[i]], {name});
        if snapshots[i] != name {
          kept := kept + [snapshots[i]];
        }
      }
      assert snapshots[..|snapshots|] == snapshots;
      snapshots := kept;
    }

    /** One attempt to delete the listed snapshot that comes next. */
    method TryNext(ghost names: seq<string>, ghost added: seq<string>, listed: seq<string>, tried: nat,
                   deleted: set<string>, stuck: seq<string>, script: seq<Turn>)
      returns (deleted': set<string>, stuck': seq<string>)
      requires Valid() && snapshots == Keep(names, deleted) + added && listed == Timestamps(names)
      requires Touched(listed, tried, deleted, stuck) && tried < |listed|
      requires AsScripted(script, listed, tried, deleted) && tried < |script| && !script[tried].attempt.Dies?
      modifies `snapshots
      ensures Valid() && snapshots == Keep(names, deleted') + added
      ensures Touched(listed, tried + 1, deleted', stuck') && AsScripted(script, listed, tried + 1, deleted')
      ensures var fails := if script[tried].attempt.Fails? then 1 else 0;
        |deleted'| == |deleted| + 1 - fails && |stuck'| == |stuck| + fails
        && |Timestamps(snapshots)| == |Timestamps(old(snapshots))| - 1 + fails
    {
      var s := listed[tried];
      NotYetTouched(listed, tried, deleted, stuck);
      ScriptedOneMore(script, listed, tried, deleted);
      if script[tried].attempt.Fails? {
        TouchedStuck(listed, tried, deleted, stuck);
        deleted', stuck' := deleted, stuck + [s];
      } else {
        TouchedDeleted(listed, tried, deleted, stuck);
        TimestampsAre(names, s);
        OldNotAdded(names, deleted, added, s);
        KeepIs(names, deleted, s);
        Delete(s);
        deleted', stuck' := deleted + {s}, stuck;
      }
    }

    /**
     * One cleanup, with a creator at work at the same time. `tried` of the listed snapshots were tried, oldest first:
     * each of them was deleted or is recorded as stuck.
     */
    method Cleanup(script: seq<Turn>) returns (outcome: Outcome, ghost listed: seq<string>, tried: nat,
                                               deleted: set<string>, stuck: seq<string>, ghost added: seq<string>)
      requires Valid()
      modifies `snapshots
      ensures Valid()
      ensures listed == Timestamps(old(snapshots))
      ensures Touched(listed, tried, deleted, stuck)
      ensures snapshots == Keep(old(snapshots), deleted) + added
      ensures |Timestamps(snapshots)| >= |listed| - |deleted|
      ensures Bounded(|listed|, snapshotNumber, tried, |deleted|, |stuck|, outcome)
      ensures AsScripted(script, listed, tried, deleted)
      ensures NoneCreated(script) ==> added == [] && |Timestamps(snapshots)| == |listed| - |deleted|
      ensures outcome.Killed? ==> |script| < |listed| || exists i :: 0 <= i < |script| && script[i].attempt.Dies?
    {
      var names, ignored := List();
      listed := names;
      outcome, tried, deleted, stuck, added := DeleteSnapshots(names, script);
      forall x | x in deleted ensures x in listed {
        assert x in listed[..tried];
      }
      KeepCounts(old(snapshots), deleted);
      assert NoneCreated(script) ==> snapshots == Keep(old(snapshots), deleted);
    }

    /** The deletion loop over the listing made before. */
    method DeleteSnapshots(names: seq<string>, script: seq<Turn>)
      returns (outcome: Outcome, tried: nat, deleted: set<string>, stuck: seq<string>, ghost added: seq<string>)
      requires Valid() && names == Timestamps(snapshots) && Distinct(names)
      modifies `snapshots
      ensures Valid()
      ensures Touched(names, tried, deleted, stuck)
      ensures snapshots == Keep(old(snapshots), deleted) + added
      ensures |Timestamps(snapshots)| >= |names| - |deleted|
      ensures Bounded(|names|, snapshotNumber, tried, |deleted|, |stuck|, outcome)
      ensures AsScripted(script, names, tried, deleted)
      ensures NoneCreated(script) ==> added == []
      ensures outcome.Killed? ==> |script| < |names| || exists i :: 0 <= i < |script| && script[i].attempt.Dies?
    {
      outcome, tried, deleted, stuck, added := Finished, 0, {}, [], [];
      KeepAll(snapshots, {});
      if |names| < snapshotNumber {
        return;
      }
      var excess := |names| - snapshotNumber;
      if excess <= 0 {
        return;
      }
      for i := 0 to |names|
        invariant Valid() && outcome == Finished
        invariant |deleted| <= excess && |stuck| < excess
        invariant i <= |script| && AsScripted(script, names, tried, deleted)
        invariant tried <= i && (tried == i || |deleted| == excess) && tried <= 2 * excess - 1
        invariant Touched(names, tried, deleted, stuck)
        invariant snapshots == Keep(old(snapshots), deleted) + added
        invariant |Timestamps(snapshots)| >= |names| - |deleted|
        invariant NoneCreated(script) ==> added == []
      {
        if i >= |script| {
          outcome := Killed;
          return;
        }
        ghost var more := CreateAll(script[i].created);
        SumOfThree(Keep(old(snapshots), deleted), added, more);
        added := added + more;
        if |deleted| < excess {
          if script[i].attempt.Dies? {
            outcome := Killed;
            return;
          }
          deleted, stuck := TryNext(old(snapshots), added, names, tried, deleted, stuck, script);
          tried := tried + 1;
          if script[i].attempt.Fails? {
            if |stuck| >= |names| {
              outcome := NothingDeleted;
              return;
            }
            if |stuck| >= excess {
              outcome := Exceeded;
              return;
            }
          }
        }
      }
    }
  }

  /** Exactly the first `tried` listed snapshots were tried, and each of them was either deleted or recorded as stuck. */
  ghost predicate Touched(listed: seq<string>, tried: nat, deleted: set<string>, stuck: seq<string>) {
    && Distinct(listed) && tried <= |listed|
    && tried == |deleted| + |stuck|
    && (forall x :: x in deleted ==> x !in stuck)
    && (forall x :: x in deleted || x in stuck ==> x in listed[..tried])
    && (forall i :: 0 <= i < tried ==> listed[i] in deleted || listed[i] in stuck)
  }

  /** The creator does nothing meanwhile. */
  predicate NoneCreated(script: seq<Turn>) {
    forall i :: 0 <= i < |script| ==> script[i].created == []
  }

  predicate AllDelete(script: seq<Turn>) {
    forall i :: 0 <= i < |script| ==> script[i].attempt.Deletes?
  }

  /** A tried snapshot is deleted exactly if its attempt succeeded. */
  predicate AsScripted(script: seq<Turn>, listed: seq<string>, tried: nat, deleted: set<string>) {
    tried <= |script| && tried <= |listed|
    && forall i :: 0 <= i < tried ==> (listed[i] in deleted <==> script[i].attempt.Deletes?)
  }

  lemma ScriptedOneMore(script: seq<Turn>, listed: seq<string>, tried: nat, deleted: set<string>)
    requires AsScripted(script, listed, tried, deleted) && Distinct(listed)
    requires tried < |listed| && tried < |script| && listed[tried] !in deleted
    ensures script[tried].attempt.Deletes? ==> AsScripted(script, listed, tried + 1, deleted + {listed[tried]})
    ensures !script[tried].attempt.Deletes? ==> AsScripted(script, listed, tried + 1, deleted)
  {
  }

  lemma NotYetTried(listed: seq<string>, tried: nat)
    requires Distinct(listed) && tried < |listed|
    ensures listed[tried] !in listed[..tried]
  {
  }

  lemma NotYetTouched(listed: seq<string>, tried: nat, deleted: set<string>, stuck: seq<string>)
    requires Touched(listed, tried, deleted, stuck) && tried < |listed|
    ensures listed[tried] !in deleted
  {
    NotYetTried(listed, tried);
  }

  lemma TouchedStuck(listed: seq<string>, tried: nat, deleted: set<string>, stuck: seq<string>)
    requires Touched(listed, tried, deleted, stuck) && tried < |listed|
    ensures Touched(listed, tried + 1, deleted, stuck + [listed[tried]])
  {
    NotYetTried(listed, tried);
    assert listed[..tried + 1] == listed[..tried] + [listed[tried]];
  }

  lemma TouchedDeleted(listed: seq<string>, tried: nat, deleted: set<string>, stuck: seq<string>)
    requires Touched(listed, tried, deleted, stuck) && tried < |listed|
    ensures listed[tried] !in deleted
    ensures Touched(listed, tried + 1, deleted + {listed[tried]}, stuck)
  {
    NotYetTried(listed, tried);
    assert listed[..tried + 1] == listed[..tried] + [listed[tried]];
  }

  /** What the two counters allow: with an excess of e, at most e deletions, at most e failures, at most 2e - 1 attempts. */
  predicate Bounded(listed: nat, keep: nat, tried: nat, deleted: nat, stuck: nat, outcome: Outcome) {
    var e := Excess(listed, keep);
    && deleted <= e && stuck <= e && tried <= (if e == 0 then 0 else 2 * e - 1)
    && !outcome.NothingDeleted?
    && (outcome.Exceeded? ==> e > 0 && stuck == e)
    && (outcome.Finished? ==> deleted == e || (tried == listed && stuck < e))
  }

  // --- What follows for one cleanup

  /**
   * A cleanup that finishes leaves exactly the number to keep if the excess was at most one more than that number, and
   * otherwise at most the larger of that number and the excess less one; in any case it leaves at least that number.
   */
  lemma FinishedLeaves(listed: nat, keep: nat, tried: nat, deleted: nat, stuck: nat, outcome: Outcome)
    requires keep > 0 && listed > keep && tried == deleted + stuck
    requires Bounded(listed, keep, tried, deleted, stuck, outcome)
    ensures listed - deleted >= keep
    ensures outcome.Finished? ==>
      var e := Excess(listed, keep);
      if e <= keep + 1 then listed - deleted == keep
      else listed - deleted <= (if keep >= e - 1 then keep else e - 1)
  {
  }

  lemma TriedAreDeleted(listed: seq<string>, tried: nat, deleted: set<string>, stuck: seq<string>)
    requires tried <= |listed| && forall i :: 0 <= i < tried ==> listed[i] in deleted
    requires forall x :: x in stuck ==> x in listed[..tried]
    ensures stuck != [] ==> stuck[0] in stuck && stuck[0] in deleted
  {
    if stuck != [] {
      assert stuck[0] in listed[..tried];
    }
  }

  /** If every attempt succeeds, exactly the oldest go: as many of the newest stay as there are to keep. */
  lemma OldestGo(script: seq<Turn>, listed: seq<string>, keep: nat, tried: nat, deleted: set<string>, stuck: seq<string>,
                 outcome: Outcome, i: nat)
    requires Touched(listed, tried, deleted, stuck) && AsScripted(script, listed, tried, deleted) && keep > 0
    requires Bounded(|listed|, keep, tried, |deleted|, |stuck|, outcome) && AllDelete(script) && !outcome.Killed?
    requires i < |listed|
    ensures listed[i] in deleted <==> i < Excess(|listed|, keep)
    ensures |deleted| == Excess(|listed|, keep)
  {
    TriedAreDeleted(listed, tried, deleted, stuck);
    if listed[i] in deleted {
      var k :| 0 <= k < tried && listed[k] == listed[i];
    }
  }

  /** The newest snapshots, all but the first 2e - 1, are not even tried. */
  lemma NewestUntouched(listed: seq<string>, keep: nat, tried: nat, deleted: set<string>, stuck: seq<string>, outcome: Outcome, i: nat)
    requires Touched(listed, tried, deleted, stuck)
    requires Bounded(|listed|, keep, tried, |deleted|, |stuck|, outcome)
    requires |listed| > keep && 2 * Excess(|listed|, keep) - 1 <= i < |listed|
    ensures listed[i] !in deleted && listed[i] !in stuck
  {
    assert listed[i] !in listed[..tried];
  }

  /** Every surviving snapshot that is older than a deleted one is recorded as stuck. */
  lemma OlderSurvivorsAreStuck(listed: seq<string>, tried: nat, deleted: set<string>, stuck: seq<string>, i: nat, j: nat)
    requires Touched(listed, tried, deleted, stuck)
    requires i < j < |listed| && listed[j] in deleted && listed[i] !in deleted
    ensures listed[i] in stuck
  {
    var k :| 0 <= k < tried && listed[k] == listed[j];
  }

  /** A name still there from the beginning is not among those created since, so deleting it is deleting the old one. */
  lemma OldNotAdded(names: seq<string>, gone: set<string>, added: seq<string>, s: string)
    requires Distinct(Keep(names, gone) + added) && s in names && s !in gone
    ensures Keep(Keep(names, gone) + added, {s}) == Keep(names, gone + {s}) + added
  {
    KeepIs(names, gone, s);
    KeepSum(Keep(names, gone), added, {s});
    KeepTwice(names, gone, {s});
    var i :| 0 <= i < |Keep(names, gone)| && Keep(names, gone)[i] == s;
    assert (Keep(names, gone) + added)[i] == s;
    forall j | 0 <= j < |added| ensures added[j] != s {
      assert (Keep(names, gone) + added)[|Keep(names, gone)| + j] == added[j];
    }
    KeepAll(added, {s});
  }

  // --- Repeated cleanups

  /** What is created before a cleanup, and what happens during it. */
  datatype Cycle = Cycle(created: seq<string>, script: seq<Turn>)

  /**
   * The daemon over any number of cycles, killed anywhere: it never goes below the number to keep once there were that
   * many, and never deletes a snapshot that is not named by a timestamp. After a last cycle without interference, there
   * are no more than the number to keep.
   */
  method Daemon(shotter: SnapShotter, cycles: seq<Cycle>) returns (killed: bool)
    requires shotter.Valid()
    modifies shotter
    ensures shotter.Valid()
    ensures var before, after := |Timestamps(old(shotter.snapshots))|, |Timestamps(shotter.snapshots)|;
      after >= if before < shotter.snapshotNumber then before else shotter.snapshotNumber
    ensures forall x :: x in old(shotter.snapshots) && !IsTimestamp(x) ==> x in shotter.snapshots
    ensures !killed && cycles != [] && NoneCreated(cycles[|cycles| - 1].script) && AllDelete(cycles[|cycles| - 1].script) ==>
      |Timestamps(shotter.snapshots)| <= shotter.snapshotNumber
  {
    killed := false;
    var n := shotter.snapshotNumber;
    ghost var before := |Timestamps(shotter.snapshots)|;
    for i := 0 to |cycles|
      invariant shotter.Valid()
      invariant |Timestamps(shotter.snapshots)| >= if before < n then before else n
      invariant forall x :: x in old(shotter.snapshots) && !IsTimestamp(x) ==> x in shotter.snapshots
      invariant i > 0 && NoneCreated(cycles[i - 1].script) && AllDelete(cycles[i - 1].script) ==>
        |Timestamps(shotter.snapshots)| <= n
    {
      ghost var added := shotter.CreateAll(cycles[i].created);
      ghost var names := shotter.snapshots;
      var outcome, listed, tried, deleted, stuck, more := shotter.Cleanup(cycles[i].script);
      forall x | x in names && !IsTimestamp(x) ensures x in shotter.snapshots {
        TimestampsAre(names, x);
        KeepIs(names, deleted, x);
      }
      if outcome.Killed? {
        return true;
      }
      if AllDelete(cycles[i].script) && listed != [] {
        OldestGo(cycles[i].script, listed, n, tried, deleted, stuck, outcome, 0);
      }
    }
  }

  // --- The snapshot to send to a standby

  /** Alphabetical order on names, as `zfs list -S name` uses it. */
  predicate NameBefore(a: string, b: string) {
    a == [] || (b != [] && (a[0] < b[0] || (a[0] == b[0] && NameBefore(a[1..], b[1..]))))
  }

  predicate DescendingByName(names: seq<string>) {
    forall i, j :: 0 <= i < j < |names| ==> NameBefore(names[j], names[i])
  }

  /** Between strings of digits of one length, alphabetical order is the order of the numbers. */
  lemma {:induction false} NameOrderIsNumberOrder(a: string, b: string)
    requires Digits(a) && Digits(b) && |a| == |b|
    ensures NameBefore(a, b) <==> Number(a) <= Number(b)
  {
    if a != [] {
      var p := Power10(|a| - 1);
      if a[0] < b[0] {
        NumberBound(a[1..]);
        HigherDigit((a[0] - '0') as nat, (b[0] - '0') as nat, p);
      } else if b[0] < a[0] {
        NumberBound(b[1..]);
        HigherDigit((b[0] - '0') as nat, (a[0] - '0') as nat, p);
      } else {
        NameOrderIsNumberOrder(a[1..], b[1..]);
      }
    }
  }

  /** `_getLatestSnapshot`: the first timestamp in a listing by descending name is the latest of all. */
  method GetLatestSnapshot(names: seq<string>) returns (index: Option<nat>)
    requires DescendingByName(names)
    ensures index.None? <==> forall i :: 0 <= i < |names| ==> !IsTimestamp(names[i])
    ensures index.Some? ==>
      && index.value < |names| && IsTimestamp(names[index.value])
      && forall i :: 0 <= i < |names| && IsTimestamp(names[i]) ==> Number(names[i]) <= Number(names[index.value])
  {
    for i := 0 to |names|
      invariant forall j :: 0 <= j < i ==> !IsTimestamp(names[j])
    {
      if IsTimestamp(names[i]) {
        forall j | 0 <= j < |names| && IsTimestamp(names[j]) ensures Number(names[j]) <= Number(names[i]) {
          if i < j {
            NameOrderIsNumberOrder(names[j], names[i]);
          }
        }
        return Some(i);
      }
    }
    index := None;
  }
}
