/** `state-backfill` of lib/adm.js: the cluster state of a version 1 shard, derived from its election nodes. */
module Backfill {
  import opened Wrappers
  import opened Sequences
  import opened ActiveList

  /** An election node: its name holds the peer's id and the sequence number that ZooKeeper appended. */
  type Node = Active

  /** The number that the nodes are sorted by. */
  const NUMBER := (n: Node) => if n.seqno.Some? then n.seqno.value else 0

  predicate Numbered(nodes: seq<Node>) {
    forall n :: n in nodes ==> n.seqno.Some?
  }

  /** The children of the election directory, listed in any order, as they are sorted by their numbers. */
  function Ranked(names: seq<string>): seq<Node> {
    Sorted(ParseAll(names), NUMBER)
  }

  lemma RankedSize(names: seq<string>)
    ensures |Ranked(names)| == |names|
  {
    SortedSorts(ParseAll(names), NUMBER);
    SameSize(Ranked(names), ParseAll(names));
  }

  /** What is written: None and an empty list where the legacy topology has nobody. */
  datatype Topology = Topology(primary: Option<Node>, sync: Option<Node>, asyncs: seq<Node>)

  /** All peers that a topology names. */
  function Peers(t: Topology): seq<Node> {
    (if t.primary.Some? then [t.primary.value] else []) + (if t.sync.Some? then [t.sync.value] else []) + t.asyncs
  }

  /** The legacy topology: order of joining is order of rank. */
  function Legacy(nodes: seq<Node>): Topology {
    Topology(if |nodes| > 0 then Some(nodes[0]) else None,
             if |nodes| > 1 then Some(nodes[1]) else None,
             if |nodes| > 2 then nodes[2..] else [])
  }

  /** With an async there, the last async becomes the sync and the sync the last async. */
  function Rearranged(t: Topology): Topology {
    if t.sync.Some? && t.asyncs != [] then
      var last := |t.asyncs| - 1;
      t.(sync := Some(t.asyncs[last]), asyncs := t.asyncs[..last] + [t.sync.value])
    else t
  }

  /** Exactly the nodes of these ranks have come to their places. */
  ghost predicate Arrived(nodes: seq<Node>, ranks: seq<nat>, primary: Option<Node>, sync: Option<Node>, places: map<nat, Node>) {
    && primary == (if |nodes| > 0 && 0 in ranks then Some(nodes[0]) else None)
    && sync == (if |nodes| > 1 && 1 in ranks then Some(nodes[1]) else None)
    && (forall i :: i in places <==> i in ranks && i >= 2)
    && (forall i :: i in places && i < |nodes| ==> places[i] == nodes[i])
  }

  lemma OneMoreArrived(nodes: seq<Node>, ranks: seq<nat>, primary: Option<Node>, sync: Option<Node>, places: map<nat, Node>, rank: nat)
    requires Arrived(nodes, ranks, primary, sync, places) && rank < |nodes|
    ensures Arrived(nodes, ranks + [rank], if rank == 0 then Some(nodes[0]) else primary,
                    if rank == 1 then Some(nodes[1]) else sync,
                    if rank >= 2 then places[rank := nodes[rank]] else places)
  {
  }

  /** The sparse array of the asyncs, filled from its start to its end. */
  function Places(nodes: seq<Node>, places: map<nat, Node>): Option<seq<Node>>
    requires forall i :: 2 <= i < |nodes| ==> i in places
  {
    if |nodes| > 2 then Some(seq(|nodes| - 2, i requires 0 <= i < |nodes| - 2 => places[i + 2])) else None
  }

  lemma ArrivedIsLegacy(nodes: seq<Node>, ranks: seq<nat>, primary: Option<Node>, sync: Option<Node>, places: map<nat, Node>)
    requires Arrived(nodes, ranks, primary, sync, places)
    requires forall i :: 0 <= i < |nodes| ==> i in ranks
    requires forall i :: 2 <= i < |nodes| ==> i in places
    ensures Topology(primary, sync, if Places(nodes, places).None? then [] else Places(nodes, places).value) == Legacy(nodes)
  {
    if |nodes| > 2 {
      assert Places(nodes, places).value == nodes[2..];
    }
  }

  method Collect(nodes: seq<Node>, arrivals: seq<nat>)
    returns (primary: Option<Node>, sync: Option<Node>, places: map<nat, Node>)
    requires forall i :: i in arrivals <==> 0 <= i < |nodes|
    ensures Arrived(nodes, arrivals, primary, sync, places)
    ensures forall i :: 2 <= i < |nodes| ==> i in places
  {
    primary, sync, places := None, None, map[];
    for i := 0 to |arrivals|
      invariant Arrived(nodes, arrivals[..i], primary, sync, places)
    {
      var rank := arrivals[i];
      assert rank in arrivals;
      assert arrivals[..i + 1] == arrivals[..i] + [rank];
      OneMoreArrived(nodes, arrivals[..i], primary, sync, places, rank);
      match rank
      case 0 => primary := Some(nodes[0]);
      case 1 => sync := Some(nodes[1]);
      case _ => places := places[rank := nodes[rank]];
    }
    assert arrivals[..|arrivals|] == arrivals;
  }

  method PeerState(nodes: seq<Node>, arrivals: seq<nat>) returns (t: Topology, list: Option<seq<Node>>)
    requires forall i :: i in arrivals <==> 0 <= i < |nodes|
    ensures t == Legacy(nodes) && t.asyncs == if list.None? then [] else list.value
  {
    var first, second, places := Collect(nodes, arrivals);
    list := Places(nodes, places);
    t := Topology(first, second, if list.None? then [] else list.value);
    ArrivedIsLegacy(nodes, arrivals, first, second, places);
  }

  class LegacyState {
    var primary: Option<Node>
    var sync: Option<Node>
    var asyncs: Option<seq<Node>>

    function View(): Topology
      reads this
    {
      Topology(primary, sync, if asyncs.None? then [] else asyncs.value)
    }

    /**
     * `_getPeerState`: each node is given its place by its rank, whenever its data arrives; `arrivals` are the ranks in
     * the order of arrival, and the asyncs are filled in like a sparse array.
     */
    constructor (names: seq<string>, arrivals: seq<nat>)
      requires Numbered(ParseAll(names))
      requires forall i :: i in arrivals <==> 0 <= i < |names|
      ensures View() == Legacy(Ranked(names))
    {
      RankedSize(names);
      var t, list := PeerState(Ranked(names), arrivals);
      primary, sync, asyncs := t.primary, t.sync, list;
    }

    /** `_rearrangeState`. */
    method Rearrange()
      modifies this
      ensures View() == Rearranged(old(View()))
      ensures asyncs.Some?
    {
      if sync.Some? && asyncs.Some? && |asyncs.value| >= 1 {
        var list := asyncs.value;
        var newSync := list[|list| - 1];
        list := list[..|list| - 1];
        list := list + [sync.value];
        asyncs, sync := Some(list), Some(newSync);
      }
      if asyncs.None? {
        asyncs := Some([]);
      }
    }
  }

  lemma SwapConserves(a: Node, b: Node, middle: seq<Node>, c: Node)
    ensures multiset([a] + [c] + (middle + [b])) == multiset([a] + [b] + middle + [c])
  {
  }

  lemma RearrangedParts(a: Node, b: Node, middle: seq<Node>, c: Node)
    ensures Peers(Rearranged(Legacy([a] + [b] + middle + [c]))) == [a] + [c] + (middle + [b])
  {
    var nodes := [a] + [b] + middle + [c];
    assert nodes[2..] == middle + [c];
    assert (middle + [c])[..|middle|] == middle;
  }

  lemma FourParts(nodes: seq<Node>)
    requires |nodes| >= 3
    ensures nodes == [nodes[0]] + [nodes[1]] + nodes[2..|nodes| - 1] + [nodes[|nodes| - 1]]
  {
  }

  lemma FewConserved(nodes: seq<Node>)
    requires |nodes| < 3
    ensures Peers(Rearranged(Legacy(nodes))) == nodes
  {
    FewNodesStay(nodes);
  }

  lemma RearrangedConserves(nodes: seq<Node>)
    ensures multiset(Peers(Rearranged(Legacy(nodes)))) == multiset(nodes)
  {
    if |nodes| >= 3 {
      var n := |nodes| - 1;
      var a, b, middle, c := nodes[0], nodes[1], nodes[2..n], nodes[n];
      FourParts(nodes);
      RearrangedParts(a, b, middle, c);
      SwapConserves(a, b, middle, c);
    } else {
      FewConserved(nodes);
    }
  }

  /** The backfill gives every node of the listing exactly one place. */
  lemma PeersConserved(names: seq<string>)
    ensures multiset(Peers(Rearranged(Legacy(Ranked(names))))) == multiset(ParseAll(names))
  {
    RearrangedConserves(Ranked(names));
    SortedSorts(ParseAll(names), NUMBER);
  }

  /** With three nodes or more: the lowest number is primary, the highest is sync, and the former sync is the last async. */
  lemma RanksOfSorted(nodes: seq<Node>)
    requires SortedBy(nodes, NUMBER) && |nodes| >= 3
    ensures var t := Rearranged(Legacy(nodes));
      && t.primary == Some(nodes[0]) && t.sync == Some(nodes[|nodes| - 1])
      && |t.asyncs| == |nodes| - 2 && t.asyncs[|t.asyncs| - 1] == nodes[1]
      && SortedBy(t.asyncs[..|t.asyncs| - 1], NUMBER)
  {
    var n := |nodes| - 1;
    assert Legacy(nodes).asyncs == nodes[2..];
    assert Rearranged(Legacy(nodes)).asyncs == nodes[2..][..n - 2] + [nodes[1]];
    assert Rearranged(Legacy(nodes)).asyncs[..n - 2] == nodes[2..n];
  }

  lemma FirstIsLowest(nodes: seq<Node>)
    requires SortedBy(nodes, NUMBER) && |nodes| >= 2
    ensures forall n :: n in nodes ==> NUMBER(nodes[0]) <= NUMBER(n) <= NUMBER(nodes[|nodes| - 1])
    ensures forall n :: n in nodes && n != nodes[0] ==> NUMBER(nodes[1]) <= NUMBER(n)
  {
  }

  /**
   * For a listing of three nodes or more, in any order: the lowest number of all is primary, the highest is sync, the
   * lowest but one (the former sync) is the last async, and the other asyncs are in order.
   */
  lemma RanksAfterBackfill(names: seq<string>)
    requires Numbered(ParseAll(names)) && |names| >= 3
    ensures var nodes, t := ParseAll(names), Rearranged(Legacy(Ranked(names)));
      && t.primary.Some? && t.sync.Some? && |t.asyncs| == |names| - 2
      && t.primary.value in nodes && t.sync.value in nodes && t.asyncs[|t.asyncs| - 1] in nodes
      && (forall n :: n in nodes ==> NUMBER(t.primary.value) <= NUMBER(n) <= NUMBER(t.sync.value))
      && (forall n :: n in nodes && n != t.primary.value ==> NUMBER(t.asyncs[|t.asyncs| - 1]) <= NUMBER(n))
      && SortedBy(t.asyncs[..|t.asyncs| - 1], NUMBER)
  {
    var nodes, ranked := ParseAll(names), Ranked(names);
    SortedSorts(nodes, NUMBER);
    SameElements(nodes, ranked);
    RanksOfSorted(ranked);
    FirstIsLowest(ranked);
  }

  lemma SameElements(a: seq<Node>, b: seq<Node>)
    requires multiset(a) == multiset(b)
    ensures |a| == |b| && forall n :: n in a <==> n in b
  {
    assert |a| == |multiset(a)| == |multiset(b)| == |b|;
    assert forall n :: n in a <==> n in multiset(a);
  }

  /** ZooKeeper never gives a number twice; then the outcome does not depend on the order of the listing. */
  lemma ListingOrderDoesNotMatter(names: seq<string>, others: seq<string>)
    requires multiset(ParseAll(names)) == multiset(ParseAll(others)) && DistinctBy(ParseAll(names), NUMBER)
    ensures Ranked(names) == Ranked(others)
  {
    SortedSorts(ParseAll(names), NUMBER);
    SortedSorts(ParseAll(others), NUMBER);
    SortedIsDistinct(ParseAll(names), NUMBER);
    SortIsUnique(Ranked(others), Ranked(names), NUMBER);
  }

  /** Fewer nodes keep their legacy ranks. */
  lemma FewNodesStay(nodes: seq<Node>)
    requires |nodes| < 3
    ensures Rearranged(Legacy(nodes)) == Legacy(nodes)
  {
  }
}
