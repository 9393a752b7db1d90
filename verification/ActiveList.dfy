/** The list of active peers in lib/zookeeperMgr.js: parsing the ephemeral nodes, and telling lists apart. */
module ActiveList {
  import opened Wrappers
  import opened Sequences
  import opened Numbers

  // --- Order of strings

  /** The order of JavaScript's sort: by code units, a prefix first. */
  predicate Less(a: string, b: string) {
    b != [] && (a == [] || a[0] < b[0] || (a[0] == b[0] && Less(a[1..], b[1..])))
  }

  lemma {:induction false} LessTransitive(a: string, b: string, c: string)
    requires Less(a, b) && Less(b, c)
    ensures Less(a, c)
  {
    if a != [] && a[0] == b[0] && b[0] == c[0] {
      LessTransitive(a[1..], b[1..], c[1..]);
    }
  }

  lemma {:induction false} LessTotal(a: string, b: string)
    ensures Less(a, b) || a == b || Less(b, a)
    ensures !(Less(a, b) && Less(b, a)) && !Less(a, a)
  {
    if a != [] && b != [] && a[0] == b[0] {
      LessTotal(a[1..], b[1..]);
      assert a == [a[0]] + a[1..] && b == [b[0]] + b[1..];
    }
    if a != [] {
      LessTotal(a[1..], a[1..]);
    }
  }

  predicate StrictlySorted(ids: seq<string>) {
    forall i, j :: 0 <= i < j < |ids| ==> Less(ids[i], ids[j])
  }

  // --- Parsing

  /** An ephemeral node's name, with the parts before and after its last hyphen; the number is None for NaN. */
  datatype Active = Active(id: string, seqno: Option<int>, name: string)

  /** The position of the last hyphen, or -1. */
  function LastHyphen(name: string): (i: int)
    ensures -1 <= i < |name|
    ensures i >= 0 ==> name[i] == '-'
    ensures forall j :: i < j < |name| ==> name[j] != '-'
  {
    if name == [] then -1
    else if name[|name| - 1] == '-' then |name| - 1
    else LastHyphen(name[..|name| - 1])
  }

  predicate IsDigit(c: char) {
    '0' <= c <= '9'
  }

  /** White space, as JavaScript has it. */
  predicate IsBlank(c: char) {
    var n := c as int;
    n == 0x20 || 0x9 <= n <= 0xD || n in {0xA0, 0x1680, 0x202F, 0x205F, 0x3000, 0xFEFF} || 0x2000 <= n <= 0x200A
    || n in {0x2028, 0x2029}
  }

  function Trimmed(s: string): string {
    if s != [] && IsBlank(s[0]) then Trimmed(s[1..]) else s
  }

  /** The number that the leading digits stand for. */
  function LeadingNumber(s: string, sofar: nat): nat {
    if s == [] || !IsDigit(s[0]) then sofar
    else LeadingNumber(s[1..], sofar * 10 + (s[0] - '0') as nat)
  }

  /** `parseInt` to base 10: leading blanks, a sign, then digits; None is NaN. */
  function ParseInt(text: string): Option<int> {
    var s := Trimmed(text);
    var digits := if s != [] && s[0] in {'+', '-'} then s[1..] else s;
    if digits == [] || !IsDigit(digits[0]) then None
    else
      var n: int := LeadingNumber(digits, 0);
      Some(if s[0] == '-' then -n else n)
  }

  function Parse(name: string): Active {
    var i := LastHyphen(name);
    Active(if i < 0 then [] else name[..i], ParseInt(name[i + 1..]), name)
  }

  lemma {:induction false} LeadingNumberIs(s: string, rest: string, sofar: nat)
    requires Digits(s) && (rest == [] || !IsDigit(rest[0]))
    ensures LeadingNumber(s + rest, sofar) == sofar * Power10(|s|) + Number(s)
  {
    if s == [] {
      assert s + rest == rest;
    } else {
      var d := (s[0] - '0') as nat;
      assert (s + rest)[1..] == s[1..] + rest;
      LeadingNumberIs(s[1..], rest, sofar * 10 + d);
      Shifted(sofar, d, Power10(|s| - 1));
    }
  }

  lemma Shifted(sofar: nat, d: nat, p: nat)
    ensures (sofar * 10 + d) * p == sofar * (10 * p) + d * p
  {
  }

  /** Digits stand for their number, whatever follows them. */
  lemma DigitsParse(s: string, rest: string)
    requires Digits(s) && s != [] && (rest == [] || !IsDigit(rest[0]))
    ensures ParseInt(s + rest) == Some(Number(s))
  {
    LeadingNumberIs(s, rest, 0);
    assert (s + rest)[0] == s[0] && Trimmed(s + rest) == s + rest;
  }

  /** A sign before them counts. */
  lemma SignParses(sign: char, s: string, rest: string)
    requires Digits(s) && s != [] && (rest == [] || !IsDigit(rest[0])) && sign in {'+', '-'}
    ensures var n: int := Number(s);
      ParseInt([sign] + (s + rest)) == Some(if sign == '-' then -n else n)
  {
    var text := [sign] + (s + rest);
    LeadingNumberIs(s, rest, 0);
    assert Trimmed(text) == text && text[1..] == s + rest && (s + rest)[0] == s[0];
  }

  /** White space and line terminators: sections 7.2 and 7.3 of ECMA-262, fifth edition. */
  const BLANKS := {0x9, 0xA, 0xB, 0xC, 0xD, 0x20, 0xA0, 0x1680, 0x2000, 0x2001, 0x2002, 0x2003, 0x2004, 0x2005, 0x2006,
                   0x2007, 0x2008, 0x2009, 0x200A, 0x2028, 0x2029, 0x202F, 0x205F, 0x3000, 0xFEFF}

  /** Blanks before all that do not, and they are just these. */
  lemma BlanksDoNotCount(c: char, text: string)
    ensures c as int in BLANKS ==> ParseInt([c] + text) == ParseInt(text)
    ensures c as int !in BLANKS ==> Trimmed([c] + text) == [c] + text
  {
    assert ([c] + text)[1..] == text;
  }

  lemma {:induction false} HyphenIsLast(id: string, s: string)
    requires forall i :: 0 <= i < |s| ==> s[i] != '-'
    ensures LastHyphen(id + "-" + s) == |id|
  {
    var name := id + "-" + s;
    assert name[|id|] == '-';
    assert forall i :: |id| < i < |name| ==> name[i] == s[i - |id| - 1];
  }

  /** A node's name as ZooKeeper makes it, the id, a hyphen and a number, gives back the id and the number. */
  lemma NameParses(id: string, s: string)
    requires Digits(s) && s != []
    ensures Parse(id + "-" + s) == Active(id, Some(Number(s)), id + "-" + s)
  {
    var name := id + "-" + s;
    HyphenIsLast(id, s);
    assert name[..|id|] == id && name[|id| + 1..] == s;
    DigitsParse(s, []);
    assert s + [] == s;
  }

  predicate Newer(a: Active, b: Active) {
    a.seqno.Some? && b.seqno.Some? && a.seqno.value > b.seqno.value
  }

  // --- Sorting the ids

  function Insert(id: string, ids: seq<string>): seq<string> {
    if ids == [] || !Less(ids[0], id) then [id] + ids else [ids[0]] + Insert(id, ids[1..])
  }

  lemma {:induction false} InsertKeepsSorted(id: string, ids: seq<string>)
    requires StrictlySorted(ids) && id !in ids
    ensures StrictlySorted(Insert(id, ids))
    ensures forall x :: x in Insert(id, ids) <==> x == id || x in ids
    ensures |Insert(id, ids)| == |ids| + 1
  {
    if ids != [] {
      LessTotal(ids[0], id);
      if Less(ids[0], id) {
        InsertKeepsSorted(id, ids[1..]);
        var rest := Insert(id, ids[1..]);
        assert forall x :: x in ids <==> x == ids[0] || x in ids[1..];
        forall j | 0 <= j < |rest| ensures Less(ids[0], rest[j]) {
          assert rest[j] in rest;
        }
      } else {
        forall j | 0 <= j < |ids| ensures Less(id, ids[j]) {
          if j > 0 {
            LessTransitive(id, ids[0], ids[j]);
          }
        }
      }
    }
  }

  method SortIds(ids: seq<string>) returns (sorted: seq<string>)
    requires Distinct(ids)
    ensures StrictlySorted(sorted)
    ensures forall x :: x in sorted <==> x in ids
  {
    sorted := [];
    for i := 0 to |ids|
      invariant StrictlySorted(sorted)
      invariant forall x :: x in sorted <==> x in ids[..i]
    {
      InsertKeepsSorted(ids[i], sorted);
      sorted := Insert(ids[i], sorted);
      assert ids[..i + 1] == ids[..i] + [ids[i]];
    }
    assert ids[..|ids|] == ids;
  }

  // --- parseAndUniqueActives

  function Ids(actives: seq<Active>): (ids: seq<string>)
    ensures |ids| == |actives| && forall i :: 0 <= i < |ids| ==> ids[i] == actives[i].id
  {
    seq(|actives|, i requires 0 <= i < |actives| => actives[i].id)
  }

  function ParseAll(names: seq<string>): (nodes: seq<Active>)
    ensures |nodes| == |names| && forall i :: 0 <= i < |nodes| ==> nodes[i] == Parse(names[i])
  {
    seq(|names|, i requires 0 <= i < |names| => Parse(names[i]))
  }

  /** The entry stands for the node: it has the same id, and the node is not newer. */
  predicate StandsFor(a: Active, n: Active) {
    a.id == n.id && !Newer(n, a)
  }

  predicate Represented(actives: seq<Active>, n: Active) {
    exists i :: 0 <= i < |actives| && StandsFor(actives[i], n)
  }

  /** One entry for each id, in strict order of the ids; each is one of the nodes, and every node has an entry no older. */
  predicate IsUniqueList(nodes: seq<Active>, actives: seq<Active>) {
    && StrictlySorted(Ids(actives))
    && (forall i :: 0 <= i < |actives| ==> actives[i] in nodes)
    && (forall n :: n in nodes ==> Represented(actives, n))
  }

  /** What the map `max` holds after the nodes so far. */
  predicate HoldsNewest(nodes: seq<Active>, max: map<string, Active>) {
    && (forall id :: id in max ==> max[id].id == id && max[id] in nodes)
    && (forall n :: n in nodes ==> n.id in max && !Newer(n, max[n.id]))
  }

  lemma NewestOneMore(nodes: seq<Active>, max: map<string, Active>, a: Active)
    requires HoldsNewest(nodes, max)
    ensures HoldsNewest(nodes + [a], if a.id !in max || Newer(a, max[a.id]) then max[a.id := a] else max)
  {
  }

  /** The keys of `max`, in the order of their insertion. */
  ghost predicate AreKeys(keys: seq<string>, max: map<string, Active>) {
    Distinct(keys) && forall k :: k in keys <==> k in max
  }

  lemma KeyAdded(keys: seq<string>, max: map<string, Active>, a: Active)
    requires AreKeys(keys, max)
    ensures AreKeys(if a.id in max then keys else keys + [a.id], max[a.id := a])
  {
    assert a.id !in max ==> a.id !in keys;
  }

  method NewestOfEach(nodes: seq<Active>) returns (max: map<string, Active>, keys: seq<string>)
    ensures HoldsNewest(nodes, max) && AreKeys(keys, max)
  {
    max, keys := map[], [];
    for i := 0 to |nodes|
      invariant HoldsNewest(nodes[..i], max) && AreKeys(keys, max)
    {
      var a := nodes[i];
      assert nodes[..i + 1] == nodes[..i] + [a];
      NewestOneMore(nodes[..i], max, a);
      if a.id !in max || Newer(a, max[a.id]) {
        KeyAdded(keys, max, a);
        keys, max := if a.id in max then keys else keys + [a.id], max[a.id := a];
      }
    }
    assert nodes[..|nodes|] == nodes;
  }

  method ParseAndUniqueActives(list: seq<string>) returns (actives: seq<Active>)
    ensures IsUniqueList(ParseAll(list), actives)
  {
    var nodes := ParseAll(list);
    var max, keys := NewestOfEach(nodes);
    var sorted := SortIds(keys);
    actives := Listed(max, sorted);
    ListedIsUnique(nodes, max, sorted);
  }

  function Listed(max: map<string, Active>, ids: seq<string>): (actives: seq<Active>)
    requires forall id :: id in ids ==> id in max
    ensures |actives| == |ids| && forall i :: 0 <= i < |ids| ==> actives[i] == max[ids[i]]
  {
    seq(|ids|, i requires 0 <= i < |ids| => max[ids[i]])
  }

  lemma ListedIsUnique(nodes: seq<Active>, max: map<string, Active>, sorted: seq<string>)
    requires HoldsNewest(nodes, max) && StrictlySorted(sorted)
    requires forall id :: id in sorted <==> id in max
    ensures IsUniqueList(nodes, Listed(max, sorted))
  {
    var actives := Listed(max, sorted);
    assert Ids(actives) == sorted;
    forall n | n in nodes ensures Represented(actives, n) {
      assert n.id in sorted;
      var i :| 0 <= i < |sorted| && sorted[i] == n.id;
      assert StandsFor(actives[i], n);
    }
  }

  // --- What the list is worth

  /** ZooKeeper ends the names of sequential nodes in a number, and id and number make the name. */
  predicate Proper(nodes: seq<Active>) {
    && (forall n :: n in nodes ==> n.seqno.Some?)
    && (forall m, n :: m in nodes && n in nodes && m.id == n.id && m.seqno == n.seqno ==> m == n)
  }

  lemma OnePerId(actives: seq<Active>, i: nat, j: nat)
    requires StrictlySorted(Ids(actives)) && i < |actives| && j < |actives| && actives[i].id == actives[j].id
    ensures i == j
  {
    LessTotal(actives[i].id, actives[i].id);
    assert Ids(actives)[i] == Ids(actives)[j];
  }

  ghost predicate HasId(nodes: seq<Active>, id: string) {
    exists n :: n in nodes && n.id == id
  }

  lemma IdOfEntry(nodes: seq<Active>, actives: seq<Active>, i: nat)
    requires IsUniqueList(nodes, actives) && i < |actives|
    ensures HasId(nodes, actives[i].id)
  {
    assert actives[i] in nodes;
  }

  lemma EntryForId(nodes: seq<Active>, actives: seq<Active>, n: Active) returns (i: nat)
    requires IsUniqueList(nodes, actives) && n in nodes
    ensures i < |actives| && StandsFor(actives[i], n)
  {
    assert Represented(actives, n);
    i :| 0 <= i < |actives| && StandsFor(actives[i], n);
  }

  lemma ListedIdIsThere(nodes: seq<Active>, actives: seq<Active>, id: string)
    requires IsUniqueList(nodes, actives) && id in Ids(actives)
    ensures HasId(nodes, id)
  {
    var i :| 0 <= i < |actives| && Ids(actives)[i] == id;
    IdOfEntry(nodes, actives, i);
  }

  lemma IdIsListed(nodes: seq<Active>, actives: seq<Active>, id: string)
    requires IsUniqueList(nodes, actives) && HasId(nodes, id)
    ensures id in Ids(actives)
  {
    var n :| n in nodes && n.id == id;
    var i := EntryForId(nodes, actives, n);
    assert Ids(actives)[i] == id;
  }

  /** Exactly the ids of the nodes. */
  lemma UniqueListHasTheIds(nodes: seq<Active>, actives: seq<Active>, id: string)
    requires IsUniqueList(nodes, actives)
    ensures id in Ids(actives) <==> HasId(nodes, id)
  {
    if id in Ids(actives) {
      ListedIdIsThere(nodes, actives, id);
    }
    if HasId(nodes, id) {
      IdIsListed(nodes, actives, id);
    }
  }

  /** Each entry has the highest number of all nodes with its id. */
  lemma UniqueListHasTheHighest(nodes: seq<Active>, actives: seq<Active>, i: nat, n: Active)
    requires IsUniqueList(nodes, actives) && Proper(nodes)
    requires i < |actives| && n in nodes && n.id == actives[i].id
    ensures n.seqno.Some? && actives[i].seqno.Some? && n.seqno.value <= actives[i].seqno.value
  {
    assert Represented(actives, n);
    var j :| 0 <= j < |actives| && StandsFor(actives[j], n);
    OnePerId(actives, i, j);
  }

  /** Two strictly sorted lists with the same elements are the same. */
  lemma {:induction false} SortedIsUnique(a: seq<string>, b: seq<string>)
    requires StrictlySorted(a) && StrictlySorted(b)
    requires forall x :: x in a <==> x in b
    ensures a == b
  {
    if a != [] && b != [] {
      assert a[0] in b && b[0] in a;
      var i :| 0 <= i < |b| && b[i] == a[0];
      var j :| 0 <= j < |a| && a[j] == b[0];
      LessTotal(a[0], b[0]);
      assert i == 0 && j == 0;
      forall x ensures x in a[1..] <==> x in b[1..] {
        RestOf(a, x);
        RestOf(b, x);
      }
      SortedIsUnique(a[1..], b[1..]);
      assert a == [a[0]] + a[1..] && b == [b[0]] + b[1..];
    } else if a == [] {
      FirstIsIn(b);
    } else {
      FirstIsIn(a);
    }
  }

  lemma FirstIsIn(a: seq<string>)
    ensures a == [] || exists x :: x in a
  {
    if a != [] {
      assert a[0] in a;
    }
  }

  lemma RestOf(a: seq<string>, x: string)
    requires StrictlySorted(a) && a != []
    ensures x in a[1..] <==> x in a && x != a[0]
  {
    LessTotal(a[0], a[0]);
  }

  lemma SameIds(nodes: seq<Active>, nodes': seq<Active>, actives: seq<Active>, actives': seq<Active>)
    requires IsUniqueList(nodes, actives) && IsUniqueList(nodes', actives')
    requires forall n :: n in nodes <==> n in nodes'
    ensures Ids(actives) == Ids(actives')
  {
    forall id ensures id in Ids(actives) <==> id in Ids(actives') {
      UniqueListHasTheIds(nodes, actives, id);
      UniqueListHasTheIds(nodes', actives', id);
      assert HasId(nodes, id) <==> HasId(nodes', id);
    }
    SortedIsUnique(Ids(actives), Ids(actives'));
  }

  /** The result depends on which nodes there are, not on the order in which they are listed. */
  lemma OrderDoesNotMatter(nodes: seq<Active>, nodes': seq<Active>, actives: seq<Active>, actives': seq<Active>)
    requires IsUniqueList(nodes, actives) && IsUniqueList(nodes', actives')
    requires Proper(nodes) && forall n :: n in nodes <==> n in nodes'
    ensures actives == actives'
  {
    SameIds(nodes, nodes', actives, actives');
    forall i | 0 <= i < |actives| ensures actives[i] == actives'[i] {
      SameEntry(nodes, nodes', actives, actives', i);
    }
  }

  lemma SameEntry(nodes: seq<Active>, nodes': seq<Active>, actives: seq<Active>, actives': seq<Active>, i: nat)
    requires IsUniqueList(nodes, actives) && IsUniqueList(nodes', actives')
    requires Proper(nodes) && forall n :: n in nodes <==> n in nodes'
    requires Ids(actives) == Ids(actives') && i < |actives|
    ensures i < |actives'| && actives[i] == actives'[i]
  {
    assert Ids(actives)[i] == Ids(actives')[i];
    var m, n := actives[i], actives'[i];
    assert m in nodes && n in nodes';
    SameProper(nodes, nodes');
    NotNewer(nodes, actives, i, n);
    NotNewer(nodes', actives', i, m);
    SameNode(nodes, m, n);
  }

  lemma NotNewer(nodes: seq<Active>, actives: seq<Active>, i: nat, n: Active)
    requires IsUniqueList(nodes, actives) && Proper(nodes)
    requires i < |actives| && n in nodes && n.id == actives[i].id
    ensures !Newer(n, actives[i])
  {
    UniqueListHasTheHighest(nodes, actives, i, n);
  }

  lemma SameNode(nodes: seq<Active>, m: Active, n: Active)
    requires Proper(nodes) && m in nodes && n in nodes && m.id == n.id && !Newer(m, n) && !Newer(n, m)
    ensures m == n
  {
  }

  lemma SameProper(nodes: seq<Active>, nodes': seq<Active>)
    requires Proper(nodes) && forall n :: n in nodes <==> n in nodes'
    ensures Proper(nodes')
  {
  }

  lemma NamesParseBack(names: seq<string>, actives: seq<Active>)
    requires IsUniqueList(ParseAll(names), actives)
    ensures ParseAll(Names(actives)) == actives
  {
    forall i | 0 <= i < |actives| ensures ParseAll(Names(actives))[i] == actives[i] {
      assert actives[i] in ParseAll(names);
    }
  }

  /** The list made of a list's own names is that list. */
  lemma FilterIsIdempotent(names: seq<string>, actives: seq<Active>, actives': seq<Active>)
    requires IsUniqueList(ParseAll(names), actives) && Proper(ParseAll(names))
    requires IsUniqueList(ParseAll(Names(actives)), actives')
    ensures actives' == actives
  {
    NamesParseBack(names, actives);
    ListedAgain(ParseAll(names), actives);
    OrderDoesNotMatter(actives, actives, actives, actives');
  }

  /** A unique list is a unique list of itself. */
  lemma ListedAgain(nodes: seq<Active>, actives: seq<Active>)
    requires IsUniqueList(nodes, actives) && Proper(nodes)
    ensures IsUniqueList(actives, actives) && Proper(actives)
  {
    forall n | n in actives ensures Represented(actives, n) {
      var i :| 0 <= i < |actives| && actives[i] == n;
      assert StandsFor(actives[i], n);
    }
  }

  function Names(actives: seq<Active>): (names: seq<string>)
    ensures |names| == |actives| && forall i :: 0 <= i < |names| ==> names[i] == actives[i].name
  {
    seq(|actives|, i requires 0 <= i < |actives| => actives[i].name)
  }

  // --- idListsEqual

  method IdListsEqual(a: seq<string>, b: seq<string>) returns (r: bool)
    ensures r <==> a == b
  {
    if |a| != |b| {
      return false;
    }
    for i := 0 to |a|
      invariant a[..i] == b[..i]
    {
      if a[i] != b[i] {
        return false;
      }
    }
    r := true;
  }

  /** For lists as they are kept, comparing entry by entry decides whether the sets of ids are the same. */
  lemma EntryByEntryDecidesSets(a: seq<Active>, b: seq<Active>)
    requires StrictlySorted(Ids(a)) && StrictlySorted(Ids(b))
    ensures Ids(a) == Ids(b) <==> forall id :: id in Ids(a) <==> id in Ids(b)
  {
    if forall id :: id in Ids(a) <==> id in Ids(b) {
      SortedIsUnique(Ids(a), Ids(b));
    }
  }
}
