/** The cluster state object and the edits made to it (lib/adm.js). */
module ClusterStates {
  import opened Wrappers
  import opened Sequences

  datatype Peer = Peer(id: string, ip: string, zoneId: string)

  datatype Freeze = Freeze(date: string, reason: string)

  datatype ClusterState = ClusterState(
    generation: int,
    primary: Peer,
    sync: Option<Peer>,
    asyncs: seq<Peer>,
    deposed: Option<seq<Peer>>,
    initWal: string,
    oneNodeWriteMode: Option<bool>,
    freeze: Option<Freeze>)

  /** One operator command, or a new state computed by a manager. */
  datatype Edit =
    | FreezeShard(freeze: Freeze)
    | UnfreezeShard
    | Reap(zonename: Option<string>, ip: Option<string>)
    | SetOnwm(mode: string)
    | Undepose(zoneId: string)
    | Replace(state: ClusterState)

  predicate Matches(peer: Peer, zonename: Option<string>, ip: Option<string>) {
    zonename == Some(peer.zoneId) || ip == Some(peer.ip)
  }

  /** The last index at which a peer matches. */
  function LastMatch(peers: seq<Peer>, zonename: Option<string>, ip: Option<string>): (index: Option<nat>)
    ensures index.None? ==> forall i :: 0 <= i < |peers| ==> !Matches(peers[i], zonename, ip)
    ensures index.Some? ==>
      && index.value < |peers| && Matches(peers[index.value], zonename, ip)
      && forall i :: index.value < i < |peers| ==> !Matches(peers[i], zonename, ip)
  {
    if peers == [] then None
    else if Matches(peers[|peers| - 1], zonename, ip) then Some(|peers| - 1)
    else LastMatch(peers[..|peers| - 1], zonename, ip)
  }

  /** An empty name on the command line counts as none. */
  function Given(name: Option<string>): Option<string> {
    if name == Some("") then None else name
  }

  /** The deposed peers; older states have no list of them. */
  function Deposed(state: ClusterState): seq<Peer> {
    if state.deposed.None? then [] else state.deposed.value
  }

  function WithoutDeposed(state: ClusterState, index: Option<nat>): Option<ClusterState>
    requires index.Some? ==> index.value < |Deposed(state)|
  {
    if index.None? then None else Some(state.(deposed := Some(Without(Deposed(state), index.value))))
  }

  /** The edited state, or None when the command reports an error instead. */
  function Applied(edit: Edit, state: ClusterState): Option<ClusterState> {
    match edit
    case FreezeShard(freeze) => if state.freeze.Some? then None else Some(state.(freeze := Some(freeze)))
    case UnfreezeShard => if state.freeze.None? then None else Some(state.(freeze := None))
    case Reap(zonename, ip) =>
      WithoutDeposed(state, LastMatch(Deposed(state), Given(zonename), Given(ip)))
    case SetOnwm(mode) =>
      if mode == "on" && state.oneNodeWriteMode == Some(true) then None
      else if mode == "off" && state.oneNodeWriteMode.None? then None
      else Some(state.(oneNodeWriteMode := if mode == "on" then Some(true) else None))
    case Undepose(zoneId) =>
      WithoutDeposed(state, LastMatch(Deposed(state), Some(zoneId), None))
    case Replace(s) => Some(s)
  }

  /** Freezing and unfreezing undo each other, and neither works twice. */
  lemma FreezeUndone(state: ClusterState, freeze: Freeze)
    ensures var frozen := Applied(FreezeShard(freeze), state);
      && (frozen.Some? <==> state.freeze.None?) && (Applied(UnfreezeShard, state).Some? <==> state.freeze.Some?)
      && (frozen.Some? ==>
            && frozen.value.freeze == Some(freeze) && Applied(UnfreezeShard, frozen.value) == Some(state)
            && forall f :: Applied(FreezeShard(f), frozen.value).None?)
  {
  }

  /** Only the freezing commands change the freeze, and none changes the topology, the generation or the WAL position. */
  lemma EditsKeepTheRest(edit: Edit, state: ClusterState)
    requires Applied(edit, state).Some? && !edit.Replace?
    ensures var s := Applied(edit, state).value;
      && s.generation == state.generation && s.initWal == state.initWal
      && s.primary == state.primary && s.sync == state.sync && s.asyncs == state.asyncs
      && (!edit.FreezeShard? && !edit.UnfreezeShard? ==> s.freeze == state.freeze)
      && (!edit.SetOnwm? ==> s.oneNodeWriteMode == state.oneNodeWriteMode)
      && (!edit.Reap? && !edit.Undepose? ==> s.deposed == state.deposed)
  {
    match edit
    case FreezeShard(_) =>
    case UnfreezeShard =>
    case Reap(_, _) =>
    case SetOnwm(_) =>
    case Undepose(_) =>
  }

  /** Of the peers `before`, exactly one has gone, one that matches; the others are in the order in which they were. */
  ghost predicate OneGone(before: seq<Peer>, after: seq<Peer>, zonename: Option<string>, ip: Option<string>) {
    exists n :: 0 <= n < |before| && Matches(before[n], zonename, ip) && after == before[..n] + before[n + 1..]
  }

  lemma LastMatchGoes(state: ClusterState, zonename: Option<string>, ip: Option<string>)
    ensures var r := WithoutDeposed(state, LastMatch(Deposed(state), zonename, ip));
      && (r.None? <==> forall i :: 0 <= i < |Deposed(state)| ==> !Matches(Deposed(state)[i], zonename, ip))
      && (r.Some? ==> OneGone(Deposed(state), Deposed(r.value), zonename, ip))
  {
    var index := LastMatch(Deposed(state), zonename, ip);
    if index.Some? {
      assert Matches(Deposed(state)[index.value], zonename, ip);
    }
  }

  /** The peer is named by one of the options; an option given as the empty string is as good as left out. */
  predicate Named(peer: Peer, zonename: Option<string>, ip: Option<string>) {
    || (zonename.Some? && zonename.value != "" && zonename.value == peer.zoneId)
    || (ip.Some? && ip.value != "" && ip.value == peer.ip)
  }

  /** Reaping takes exactly one peer away, one that is named; it fails only if none is. */
  lemma ReapTakesOne(state: ClusterState, zonename: Option<string>, ip: Option<string>)
    ensures var d, reaped := state.deposed, Applied(Reap(zonename, ip), state);
      && (reaped.None? <==> d.None? || forall i :: 0 <= i < |d.value| ==> !Named(d.value[i], zonename, ip))
      && (reaped.Some? ==>
            && d.Some? && reaped.value.deposed.Some?
            && (exists n :: 0 <= n < |d.value| && Named(d.value[n], zonename, ip)
                            && reaped.value.deposed.value == d.value[..n] + d.value[n + 1..]))
  {
    LastMatchGoes(state, Given(zonename), Given(ip));
    assert forall p: Peer :: Named(p, zonename, ip) <==> Matches(p, Given(zonename), Given(ip));
  }

  /** A rebuild takes exactly one peer of that zone away; nothing is written only if there is none. */
  lemma UndeposeTakesOne(state: ClusterState, zoneId: string)
    ensures var d, undeposed := state.deposed, Applied(Undepose(zoneId), state);
      && (undeposed.None? <==> d.None? || forall i :: 0 <= i < |d.value| ==> d.value[i].zoneId != zoneId)
      && (undeposed.Some? ==>
            && d.Some? && undeposed.value.deposed.Some?
            && (exists n :: 0 <= n < |d.value| && d.value[n].zoneId == zoneId
                            && undeposed.value.deposed.value == d.value[..n] + d.value[n + 1..]))
  {
    LastMatchGoes(state, Some(zoneId), None);
    var d, undeposed := Deposed(state), Applied(Undepose(zoneId), state);
    if undeposed.Some? {
      var n :| 0 <= n < |d| && Matches(d[n], Some(zoneId), None) && Deposed(undeposed.value) == d[..n] + d[n + 1..];
      assert d[n].zoneId == zoneId;
    }
    assert forall i :: 0 <= i < |d| ==> (Matches(d[i], Some(zoneId), None) <==> d[i].zoneId == zoneId);
  }

  /** Setting the mode and setting it back; a command that would change nothing is refused. */
  lemma OnwmUndone(state: ClusterState, mode: string)
    ensures mode in {"on", "off"} ==>
      var there := Applied(SetOnwm(mode), state);
      && (there.None? <==> state.oneNodeWriteMode == (if mode == "on" then Some(true) else None))
      && (there.Some? && state.oneNodeWriteMode != Some(false) ==>
            Applied(SetOnwm(if mode == "on" then "off" else "on"), there.value) == Some(state))
      && (there.Some? ==> Applied(SetOnwm(mode), there.value).None?)
  {
    var was := state.oneNodeWriteMode;
    assert was in {None, Some(false)} || was.value;
    assert |"on"| != |"off"|;
  }

  datatype Reaped = Removed | NotFound | NoList

  /** The state object as the commands hold it: read from ZooKeeper, edited in place, then written back. */
  class StateObject {
    var generation: int
    var primary: Peer
    var sync: Option<Peer>
    var asyncs: seq<Peer>
    var deposed: Option<seq<Peer>>
    var initWal: string
    var oneNodeWriteMode: Option<bool>
    var freeze: Option<Freeze>

    function View(): ClusterState
      reads this
    {
      ClusterState(generation, primary, sync, asyncs, deposed, initWal, oneNodeWriteMode, freeze)
    }

    constructor (s: ClusterState)
      ensures View() == s
    {
      generation, primary, sync, asyncs := s.generation, s.primary, s.sync, s.asyncs;
      deposed, initWal, oneNodeWriteMode, freeze := s.deposed, s.initWal, s.oneNodeWriteMode, s.freeze;
    }

    /** What is frozen can be thawed to just what it was; until then no one else freezes it. */
    method FreezeIt(f: Freeze) returns (ok: bool)
      modifies `freeze
      ensures ok <==> Applied(FreezeShard(f), old(View())).Some?
      ensures View() == if ok then Applied(FreezeShard(f), old(View())).value else old(View())
      ensures ok ==> Applied(UnfreezeShard, View()) == Some(old(View()))
      ensures forall g :: Applied(FreezeShard(g), View()).None?
    {
      if freeze.Some? {
        return false;
      }
      freeze := Some(f);
      ok := true;
    }

    /** Thawing takes back one freeze, and cannot be done twice. */
    method Unfreeze() returns (ok: bool)
      modifies `freeze
      ensures ok <==> Applied(UnfreezeShard, old(View())).Some?
      ensures View() == if ok then Applied(UnfreezeShard, old(View())).value else old(View())
      ensures ok ==> exists f :: Applied(FreezeShard(f), View()) == Some(old(View()))
      ensures Applied(UnfreezeShard, View()).None?
    {
      if freeze.None? {
        return false;
      }
      ghost var f := freeze.value;
      freeze := None;
      ok := true;
      assert Applied(FreezeShard(f), View()) == Some(old(View()));
    }

    /** The last index that matches, or -1. */
    method FindDeposed(peers: seq<Peer>, zonename: Option<string>, ip: Option<string>) returns (index: int)
      ensures index == -1 <==> LastMatch(peers, zonename, ip).None?
      ensures index != -1 ==> LastMatch(peers, zonename, ip) == Some(index)
    {
      index := -1;
      for i := 0 to |peers|
        invariant -1 <= index < i
        invariant index >= 0 ==> Matches(peers[index], zonename, ip)
        invariant forall j :: index < j < i ==> !Matches(peers[j], zonename, ip)
      {
        if Matches(peers[i], zonename, ip) {
          index := i;
        }
      }
    }

    /** `reap` goes through the whole list and so removes the last match; without a list it throws. */
    method ReapIt(zonename: Option<string>, ip: Option<string>) returns (r: Reaped)
      modifies `deposed
      ensures r.NoList? <==> old(deposed).None?
      ensures r.Removed? <==> Applied(Reap(zonename, ip), old(View())).Some?
      ensures View() == if r.Removed? then Applied(Reap(zonename, ip), old(View())).value else old(View())
    {
      if deposed.None? {
        return NoList;
      }
      var index := FindDeposed(deposed.value, Given(zonename), Given(ip));
      if index == -1 {
        return NotFound;
      }
      deposed := Some(deposed.value[..index] + deposed.value[index + 1..]);
      r := Removed;
    }

    /** `rebuild`: the node that is rebuilt is deposed no longer. Without a list or a match nothing is written. */
    method RemoveFromDeposed(zoneId: string) returns (removed: bool)
      modifies `deposed
      ensures removed == Applied(Undepose(zoneId), old(View())).Some?
      ensures View() == if removed then Applied(Undepose(zoneId), old(View())).value else old(View())
    {
      if deposed.None? {
        return false;
      }
      var index := FindDeposed(deposed.value, Some(zoneId), None);
      removed := index != -1;
      if removed {
        deposed := Some(deposed.value[..index] + deposed.value[index + 1..]);
      }
    }

    /** The same command again is refused; the opposite one gives the former state back, unless that had the mode false. */
    method SetOnwmTo(mode: string) returns (ok: bool)
      modifies `oneNodeWriteMode
      ensures ok <==> Applied(SetOnwm(mode), old(View())).Some?
      ensures View() == if ok then Applied(SetOnwm(mode), old(View())).value else old(View())
      ensures mode in {"on", "off"} ==> Applied(SetOnwm(mode), View()).None?
      ensures mode in {"on", "off"} && ok && old(oneNodeWriteMode) != Some(false) ==>
        Applied(SetOnwm(if mode == "on" then "off" else "on"), View()) == Some(old(View()))
    {
      if (mode == "on" && oneNodeWriteMode == Some(true)) || (mode == "off" && oneNodeWriteMode.None?) {
        return false;
      }
      oneNodeWriteMode := if mode == "on" then Some(true) else None;
      ok := true;
      OnwmUndone(old(View()), mode);
    }
  }
}
