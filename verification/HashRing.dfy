/** The consistent-hash ring that routes a connection to a service node, and the discovery cache
    around it (crates/grimoire-gateway/src/discovery.rs). */
module HashRing {
  import opened Common
  import opened Fnv

  type NodeId = Bytes

  const VIRTUAL_POINTS := 100
  const CACHE_TTL_NS := 3_000_000_000

  /** Decimal digits of a number, as ASCII. */
  function Decimal(v: nat): (s: Bytes)
    ensures |s| >= 1
  {
    if v < 10 then [48 + v] else Decimal(v / 10) + [48 + v % 10]
  }

  /** The text "id#v". */
  function VirtualKey(id: NodeId, v: nat): Bytes {
    id + [0x23] + Decimal(v)
  }

  function Point(id: NodeId, v: nat): u32 {
    Hash(VirtualKey(id, v))
  }

  /** A connection number is hashed over its little-endian bytes. */
  function KeyPoint(key: u32): u32 {
    var be := ToBe32(key);
    Hash([be[3], be[2], be[1], be[0]])
  }

  // ----- Which texts are hashed -----

  /** What the digits say, read from the left. */
  function ReadDigits(s: Bytes): int {
    if s == [] then 0 else ReadDigits(s[..|s| - 1]) * 10 + (s[|s| - 1] as int - 48)
  }

  /** The digits '0' to '9', no leading zero except for zero itself, and the right value. */
  predicate IsNumeral(s: Bytes, v: nat) {
    && s != [] && (forall k :: 0 <= k < |s| ==> 48 <= s[k] <= 57)
    && (s[0] == 48 ==> |s| == 1) && ReadDigits(s) == v
  }

  lemma {:induction false} DecimalIsNumeral(v: nat)
    ensures IsNumeral(Decimal(v), v)
  {
    var s := Decimal(v);
    if v < 10 {
      assert s == [48 + v] && s[..0] == [];
      assert ReadDigits(s) == ReadDigits(s[..0]) * 10 + v;
    } else {
      DecimalIsNumeral(v / 10);
      assert s[..|s| - 1] == Decimal(v / 10);
      LeadingDigit(v / 10);
    }
  }

  lemma {:induction false} LeadingDigit(v: nat)
    requires v > 0
    ensures Decimal(v)[0] != 48
  {
    if v >= 10 { LeadingDigit(v / 10); }
  }

  lemma {:induction false} ValueOfDigits(s: Bytes)
    requires forall k :: 0 <= k < |s| ==> 48 <= s[k] <= 57
    ensures ReadDigits(s) >= 0
    ensures s != [] && s[0] != 48 ==> ReadDigits(s) > 0
    decreases |s|
  {
    if s != [] { ValueOfDigits(s[..|s| - 1]); }
  }

  /** A number has one numeral only, so that is the text hashed. */
  lemma {:induction false} NumeralIsUnique(s: Bytes, v: nat)
    requires IsNumeral(s, v)
    ensures s == Decimal(v)
    decreases |s|
  {
    var init, last := s[..|s| - 1], s[|s| - 1];
    ValueOfDigits(init);
    assert v == ReadDigits(init) * 10 + (last as int - 48);
    if init == [] {
      assert s == [last];
    } else {
      assert init[0] == s[0] && ReadDigits(init) > 0;
      assert v / 10 == ReadDigits(init) && v % 10 == last as int - 48;
      NumeralIsUnique(init, v / 10);
      assert s == init + [last];
    }
  }

  /** The v-th point of a node is the hash of its id, a number sign and the numeral of v. */
  lemma PointText(id: NodeId, v: nat, digits: Bytes)
    requires IsNumeral(digits, v)
    ensures Point(id, v) == Hash(id + [0x23] + digits)
  {
    NumeralIsUnique(digits, v);
  }

  /** Different indices give one node different texts. */
  lemma IndicesHaveTheirOwnTexts(id: NodeId, v: nat, w: nat)
    requires v != w
    ensures VirtualKey(id, v) != VirtualKey(id, w)
  {
    DecimalIsNumeral(v);
    DecimalIsNumeral(w);
    var a, b := VirtualKey(id, v), VirtualKey(id, w);
    assert a[|id| + 1..] == Decimal(v) && b[|id| + 1..] == Decimal(w);
  }

  /** A connection number is hashed over its four bytes, least significant first. */
  lemma KeyBytes(key: u32, bytes: Bytes)
    requires |bytes| == 4
    requires key == bytes[0] as int + 0x100 * bytes[1] as int + 0x1_0000 * bytes[2] as int + 0x100_0000 * bytes[3] as int
    ensures KeyPoint(key) == Hash(bytes)
  {
    var turned := [bytes[3], bytes[2], bytes[1], bytes[0]];
    ReadsBigEndian(turned);
    FromBe32RoundTrip(turned);
    assert bytes == [turned[3], turned[2], turned[1], turned[0]];
  }

  // ----- What the ring is for: the clockwise successor -----

  /** Node i of the list has a virtual point at p. */
  ghost predicate HasPoint(nodes: seq<NodeId>, i: nat, p: u32) {
    i < |nodes| && exists v: nat :: v < VIRTUAL_POINTS && Point(nodes[i], v) == p
  }

  ghost predicate IsPoint(nodes: seq<NodeId>, p: u32) {
    exists i: nat :: HasPoint(nodes, i, p)
  }

  /** p is the smallest point at or after h, or the smallest point of all if there is none. */
  ghost predicate Successor(nodes: seq<NodeId>, h: u32, p: u32) {
    && IsPoint(nodes, p)
    && (p >= h ==> forall q: u32 :: IsPoint(nodes, q) && q >= h ==> p <= q)
    && (p < h ==> forall q: u32 :: IsPoint(nodes, q) ==> p <= q < h)
  }

  /** Node i may serve the key: it owns the successor of the key's point. */
  ghost predicate Serves(nodes: seq<NodeId>, key: u32, i: nat) {
    exists p: u32 :: HasPoint(nodes, i, p) && Successor(nodes, KeyPoint(key), p)
  }

  /** No two different node ids of the list share a virtual point. */
  ghost predicate NoSharedPoint(nodes: seq<NodeId>) {
    forall i: nat, j: nat, p: u32 :: HasPoint(nodes, i, p) && HasPoint(nodes, j, p) ==> nodes[i] == nodes[j]
  }

  lemma SuccessorIsUnique(nodes: seq<NodeId>, h: u32, p: u32, q: u32)
    requires Successor(nodes, h, p) && Successor(nodes, h, q)
    ensures p == q
  {}

  lemma PointMoves(a: seq<NodeId>, b: seq<NodeId>, i: nat, p: u32)
    requires HasPoint(a, i, p) && a[i] in b
    ensures IsPoint(b, p)
  {
    var j :| 0 <= j < |b| && b[j] == a[i];
    assert HasPoint(b, j, p);
  }

  /** Two node lists can disagree about a key only if one of the two choices is missing from the
      other list. Growing, shrinking and reordering the list are instances. */
  lemma Agreement(a: seq<NodeId>, b: seq<NodeId>, key: u32, i: nat, j: nat)
    requires NoSharedPoint(a + b)
    requires Serves(a, key, i) && Serves(b, key, j)
    requires a[i] in b && b[j] in a
    ensures a[i] == b[j]
  {
    var h := KeyPoint(key);
    var p: u32 :| HasPoint(a, i, p) && Successor(a, h, p);
    var q: u32 :| HasPoint(b, j, q) && Successor(b, h, q);
    PointMoves(a, b, i, p);
    PointMoves(b, a, j, q);
    assert p == q;
    assert (a + b)[i] == a[i] && (a + b)[|a| + j] == b[j];
    assert HasPoint(a + b, i, p) && HasPoint(a + b, |a| + j, p);
  }

  /** Adding a node, anywhere in the list and in any order, moves a key only to the new node. */
  lemma AddingMovesOnlyToTheNewNode(old_: seq<NodeId>, new_: seq<NodeId>, added: NodeId, key: u32, i: nat, j: nat)
    requires NoSharedPoint(old_ + new_)
    requires forall id :: id in new_ <==> id in old_ || id == added
    requires Serves(old_, key, i) && Serves(new_, key, j)
    ensures new_[j] == old_[i] || new_[j] == added
  {
    if new_[j] != added {
      assert new_[j] in new_ && old_[i] in old_;
      Agreement(old_, new_, key, i, j);
    }
  }

  /** Removing a node moves only the keys it served. */
  lemma RemovingMovesOnlyItsKeys(old_: seq<NodeId>, new_: seq<NodeId>, removed: NodeId, key: u32, i: nat, j: nat)
    requires NoSharedPoint(old_ + new_)
    requires forall id :: id in new_ <==> id in old_ && id != removed
    requires Serves(old_, key, i) && Serves(new_, key, j)
    requires old_[i] != removed
    ensures new_[j] == old_[i]
  {
    assert new_[j] in new_ && old_[i] in old_;
    Agreement(old_, new_, key, i, j);
  }

  /** The chosen node id does not depend on the order, or the repetitions, of the list. */
  lemma OrderDoesNotMatter(a: seq<NodeId>, b: seq<NodeId>, key: u32, i: nat, j: nat)
    requires NoSharedPoint(a + b)
    requires forall id :: id in a <==> id in b
    requires Serves(a, key, i) && Serves(b, key, j)
    ensures a[i] == b[j]
  {
    assert a[i] in a && b[j] in b;
    Agreement(a, b, key, i, j);
  }

  /** Equally long node ids that differ in one byte never collide at the same virtual index. */
  lemma NearNodeIdsSeparate(a: NodeId, b: NodeId, k: nat, v: nat)
    requires |a| == |b| && k < |a| && a[k] != b[k] && a[..k] == b[..k] && a[k + 1..] == b[k + 1..]
    ensures Point(a, v) != Point(b, v)
  {
    var s, t := VirtualKey(a, v), VirtualKey(b, v);
    var tail := [0x23] + Decimal(v);
    assert s == a + tail && t == b + tail;
    assert s[..k] == a[..k] && t[..k] == b[..k];
    assert s[k + 1..] == a[k + 1..] + tail && t[k + 1..] == b[k + 1..] + tail;
    NearKeysSeparate(s, t, k);
  }

  // ----- The ring itself -----

  datatype RingPoint = RingPoint(point: u32, owner: nat)

  ghost predicate Sorted(ring: seq<RingPoint>) {
    forall i, j :: 0 <= i < j < |ring| ==> ring[i].point <= ring[j].point
  }

  /** The ring is sorted and holds exactly the virtual points of the nodes, each with its owner. */
  ghost predicate IsRing(ring: seq<RingPoint>, nodes: seq<NodeId>) {
    && Sorted(ring)
    && Covers(ring, nodes)
    && |ring| == VIRTUAL_POINTS * |nodes|
  }

  ghost predicate Covers(ring: seq<RingPoint>, nodes: seq<NodeId>) {
    && (forall rp :: rp in ring ==> HasPoint(nodes, rp.owner, rp.point))
    && (forall i: nat, v: nat :: i < |nodes| && v < VIRTUAL_POINTS ==> RingPoint(Point(nodes[i], v), i) in ring)
  }

  lemma InsertKeepsOrder(s: seq<RingPoint>, at: nat, x: RingPoint)
    requires Sorted(s) && at <= |s|
    requires at > 0 ==> s[at - 1].point <= x.point
    requires at < |s| ==> x.point <= s[at].point
    ensures Sorted(s[..at] + [x] + s[at..])
    ensures multiset(s[..at] + [x] + s[at..]) == multiset(s) + multiset{x}
  {
    var r := s[..at] + [x] + s[at..];
    forall i, j | 0 <= i < j < |r| ensures r[i].point <= r[j].point {
      InsertedAt(s, at, x, i);
      InsertedAt(s, at, x, j);
    }
    InsertKeepsBag(s, at, x);
  }

  lemma InsertedAt(s: seq<RingPoint>, at: nat, x: RingPoint, k: nat)
    requires at <= |s| && k <= |s|
    ensures (s[..at] + [x] + s[at..])[k] == if k < at then s[k] else if k == at then x else s[k - 1]
  {}

  lemma InsertKeepsBag(s: seq<RingPoint>, at: nat, x: RingPoint)
    requires at <= |s|
    ensures multiset(s[..at] + [x] + s[at..]) == multiset(s) + multiset{x}
  {
    assert s == s[..at] + s[at..];
  }

  /** Sorts by point. How equal points are ordered among themselves is not promised. */
  method SortByPoint(points: seq<RingPoint>) returns (sorted: seq<RingPoint>)
    ensures Sorted(sorted)
    ensures multiset(sorted) == multiset(points)
  {
    sorted := [];
    for n := 0 to |points|
      invariant Sorted(sorted)
      invariant multiset(sorted) == multiset(points[..n])
    {
      var x := points[n];
      var at := |sorted|;
      while at > 0 && sorted[at - 1].point > x.point
        invariant 0 <= at <= |sorted|
        invariant at < |sorted| ==> x.point <= sorted[at].point
      {
        at := at - 1;
      }
      assert points[..n + 1] == points[..n] + [x];
      InsertKeepsOrder(sorted, at, x);
      sorted := sorted[..at] + [x] + sorted[at..];
    }
    assert points[..|points|] == points;
  }

  /** Every recorded point belongs to one of the first n nodes and is one of its points. */
  ghost predicate OnlyOwnPoints(points: seq<RingPoint>, nodes: seq<NodeId>, n: nat) {
    forall rp :: rp in points ==> rp.owner < n && HasPoint(nodes, rp.owner, rp.point)
  }

  /** The first `count` virtual points of node i are recorded. */
  ghost predicate HasPointsOf(points: seq<RingPoint>, nodes: seq<NodeId>, i: nat, count: nat)
    requires i < |nodes|
  {
    forall v: nat :: v < count ==> RingPoint(Point(nodes[i], v), i) in points
  }

  method PushPointsOf(points: seq<RingPoint>, nodes: seq<NodeId>, idx: nat) returns (more: seq<RingPoint>)
    requires idx < |nodes| && OnlyOwnPoints(points, nodes, idx)
    ensures OnlyOwnPoints(more, nodes, idx + 1)
    ensures HasPointsOf(more, nodes, idx, VIRTUAL_POINTS)
    ensures points <= more && |more| == |points| + VIRTUAL_POINTS
  {
    more := points;
    for v := 0 to VIRTUAL_POINTS
      invariant |more| == |points| + v && points <= more
      invariant OnlyOwnPoints(more, nodes, idx + 1)
      invariant HasPointsOf(more, nodes, idx, v)
    {
      var h := Fnv1a(VirtualKey(nodes[idx], v));
      assert h == Point(nodes[idx], v);
      assert HasPoint(nodes, idx, h);
      var before := more;
      more := more + [RingPoint(h, idx)];
      assert forall rp :: rp in before ==> rp in more;
      assert more[|before|] == RingPoint(h, idx);
    }
  }

  lemma StillHasPoints(points: seq<RingPoint>, more: seq<RingPoint>, nodes: seq<NodeId>, i: nat)
    requires i < |nodes| && points <= more && HasPointsOf(points, nodes, i, VIRTUAL_POINTS)
    ensures HasPointsOf(more, nodes, i, VIRTUAL_POINTS)
  {
    assert forall rp :: rp in points ==> rp in more;
  }

  method CollectPoints(nodes: seq<NodeId>) returns (points: seq<RingPoint>)
    ensures Covers(points, nodes) && |points| == VIRTUAL_POINTS * |nodes|
  {
    points := [];
    for idx := 0 to |nodes|
      invariant |points| == VIRTUAL_POINTS * idx
      invariant OnlyOwnPoints(points, nodes, idx)
      invariant forall i: nat :: i < idx ==> HasPointsOf(points, nodes, i, VIRTUAL_POINTS)
    {
      var more := PushPointsOf(points, nodes, idx);
      forall i: nat | i < idx ensures HasPointsOf(more, nodes, i, VIRTUAL_POINTS) {
        StillHasPoints(points, more, nodes, i);
      }
      points := more;
    }
    forall i: nat, v: nat | i < |nodes| && v < VIRTUAL_POINTS
      ensures RingPoint(Point(nodes[i], v), i) in points
    {
      assert HasPointsOf(points, nodes, i, VIRTUAL_POINTS);
    }
  }

  lemma SameBagSameCover(a: seq<RingPoint>, b: seq<RingPoint>, nodes: seq<NodeId>)
    requires multiset(a) == multiset(b) && Covers(a, nodes)
    ensures Covers(b, nodes) && |a| == |b|
  {
    assert |a| == |multiset(a)| && |b| == |multiset(b)|;
    forall rp ensures rp in a <==> rp in b {
      assert rp in a <==> rp in multiset(a);
      assert rp in b <==> rp in multiset(b);
    }
  }

  /** The ring has an entry for every node and every text "id#0" to "id#99", and no other. */
  ghost predicate HashesEveryText(ring: seq<RingPoint>, nodes: seq<NodeId>) {
    && |ring| == 100 * |nodes|
    && (forall i: nat, v: nat, digits :: i < |nodes| && v < 100 && IsNumeral(digits, v) ==>
          RingPoint(Hash(nodes[i] + [0x23] + digits), i) in ring)
    && (forall rp <- ring :: rp.owner < |nodes| && IsHashOfAText(nodes[rp.owner], rp.point))
  }

  ghost predicate IsHashOfAText(id: NodeId, p: u32) {
    exists v: nat, digits :: v < 100 && IsNumeral(digits, v) && Hash(id + [0x23] + digits) == p
  }

  lemma RingTexts(ring: seq<RingPoint>, nodes: seq<NodeId>)
    requires IsRing(ring, nodes)
    ensures HashesEveryText(ring, nodes)
  {
    forall i: nat, v: nat, digits | i < |nodes| && v < 100 && IsNumeral(digits, v)
      ensures RingPoint(Hash(nodes[i] + [0x23] + digits), i) in ring
    {
      PointText(nodes[i], v, digits);
      assert RingPoint(Point(nodes[i], v), i) in ring;
    }
    forall rp | rp in ring ensures rp.owner < |nodes| && IsHashOfAText(nodes[rp.owner], rp.point) {
      var v: nat :| v < VIRTUAL_POINTS && Point(nodes[rp.owner], v) == rp.point;
      DecimalIsNumeral(v);
      PointText(nodes[rp.owner], v, Decimal(v));
    }
  }

  /** In the same words, what it means that a node owns a point. */
  lemma OwnsExactly(nodes: seq<NodeId>, i: nat, p: u32)
    ensures HasPoint(nodes, i, p) <==> i < |nodes| && IsHashOfAText(nodes[i], p)
  {
    if HasPoint(nodes, i, p) {
      var v: nat :| v < VIRTUAL_POINTS && Point(nodes[i], v) == p;
      DecimalIsNumeral(v);
      PointText(nodes[i], v, Decimal(v));
    }
    if i < |nodes| && IsHashOfAText(nodes[i], p) {
      var v: nat, digits :| v < 100 && IsNumeral(digits, v) && Hash(nodes[i] + [0x23] + digits) == p;
      PointText(nodes[i], v, digits);
    }
  }

  method Build(nodes: seq<NodeId>) returns (ring: seq<RingPoint>)
    ensures IsRing(ring, nodes) && HashesEveryText(ring, nodes)
  {
    var points := CollectPoints(nodes);
    ring := SortByPoint(points);
    SameBagSameCover(points, ring, nodes);
    RingTexts(ring, nodes);
  }

  /** Either an index holding h, or the place where h would be inserted. */
  method BinarySearch(ring: seq<RingPoint>, h: u32) returns (found: bool, at: nat)
    requires Sorted(ring)
    ensures found ==> at < |ring| && ring[at].point == h
    ensures !found ==> at <= |ring| && (forall k :: 0 <= k < at ==> ring[k].point < h)
                       && (forall k :: at <= k < |ring| ==> ring[k].point > h)
  {
    var lo, hi := 0, |ring|;
    while lo < hi
      invariant 0 <= lo <= hi <= |ring|
      invariant forall k :: 0 <= k < lo ==> ring[k].point < h
      invariant forall k :: hi <= k < |ring| ==> ring[k].point > h
    {
      var mid := (lo + hi) / 2;
      if ring[mid].point == h {
        return true, mid;
      } else if ring[mid].point < h {
        lo := mid + 1;
      } else {
        hi := mid;
      }
    }
    return false, lo;
  }

  lemma PointsAreOnTheRing(ring: seq<RingPoint>, nodes: seq<NodeId>, q: u32)
    requires Covers(ring, nodes) && IsPoint(nodes, q)
    ensures exists k :: 0 <= k < |ring| && ring[k].point == q
  {
    var i: nat :| HasPoint(nodes, i, q);
    var v: nat :| v < VIRTUAL_POINTS && Point(nodes[i], v) == q;
    var rp := RingPoint(Point(nodes[i], v), i);
    assert rp in ring;
  }

  /** Slot k is where a search for h lands: nothing earlier reaches h, unless the search wrapped. */
  ghost predicate LandsOn(ring: seq<RingPoint>, h: u32, k: nat)
    requires k < |ring|
  {
    || ring[k].point == h
    || (ring[k].point > h && forall m :: 0 <= m < k ==> ring[m].point < h)
    || (k == 0 && forall m :: 0 <= m < |ring| ==> ring[m].point < h)
  }

  lemma LandingIsSuccessor(ring: seq<RingPoint>, nodes: seq<NodeId>, h: u32, k: nat)
    requires IsRing(ring, nodes) && k < |ring| && LandsOn(ring, h, k)
    ensures HasPoint(nodes, ring[k].owner, ring[k].point)
    ensures Successor(nodes, h, ring[k].point)
  {
    assert ring[k] in ring;
    var p := ring[k].point;
    assert IsPoint(nodes, p);
    forall q: u32 | IsPoint(nodes, q)
      ensures (p >= h && q >= h ==> p <= q) && (p < h ==> p <= q < h)
    {
      PointsAreOnTheRing(ring, nodes, q);
      var m :| 0 <= m < |ring| && ring[m].point == q;
    }
  }

  lemma WrapsAround(i: nat, n: nat)
    requires i <= n && n > 0
    ensures i % n == if i < n then i else 0
  {}

  method SearchSlot(ring: seq<RingPoint>, h: u32) returns (slot: nat)
    requires Sorted(ring) && ring != []
    ensures slot < |ring| && LandsOn(ring, h, slot)
  {
    var found, i := BinarySearch(ring, h);
    if found {
      return i;
    }
    WrapsAround(i, |ring|);
    return i % |ring|;
  }

  /** On any ring of a non-empty list, the index returned serves the key, even when points collide. */
  method Pick(ring: seq<RingPoint>, ghost nodes: seq<NodeId>, key: u32) returns (idx: nat)
    requires IsRing(ring, nodes)
    ensures nodes == [] ==> idx == 0
    ensures nodes != [] ==> idx < |nodes| && Serves(nodes, key, idx)
  {
    if |ring| == 0 {
      return 0;
    }
    var be := ToBe32(key);
    var h := Fnv1a([be[3], be[2], be[1], be[0]]);
    var slot := SearchSlot(ring, h);
    LandingIsSuccessor(ring, nodes, h, slot);
    return ring[slot].owner;
  }

  // ----- Discovery -----

  const DOMAIN_ROOM: u32 := 0x0100_0000
  const DOMAIN_BATTLE: u32 := 0x0200_0000
  const DOMAIN_CARD: u32 := 0x0300_0000

  predicate KnownDomain(domain: u32) {
    domain in {DOMAIN_ROOM, DOMAIN_BATTLE, DOMAIN_CARD}
  }

  datatype CacheEntry = CacheEntry(nodes: seq<NodeId>, ring: seq<RingPoint>, fetchedAt: nat)

  class Discovery {
    var cache: map<u32, CacheEntry>
    /** Round-robin cursor. */
    var rr: nat

    ghost predicate Valid()
      reads this
    {
      forall d :: d in cache ==> IsRing(cache[d].ring, cache[d].nodes)
    }

    constructor ()
      ensures Valid() && cache == map[] && rr == 0
    {
      cache := map[];
      rr := 0;
    }

    predicate NeedsFetch(domain: u32, now: nat)
      reads this
    {
      domain !in cache || cache[domain].nodes == [] || now - cache[domain].fetchedAt > CACHE_TTL_NS
    }

    /** Replaces the cached list and ring; `reply` is what the registry answered, if it did. */
    method Fetch(domain: u32, now: nat, reply: Option<seq<NodeId>>) returns (ok: bool)
      requires Valid()
      modifies this`cache
      ensures Valid() && ok == reply.Some?
      ensures !ok ==> cache == old(cache)
      ensures ok ==> domain in cache && cache[domain].nodes == reply.value && cache[domain].fetchedAt == now
      ensures cache - {domain} == old(cache) - {domain}
    {
      match reply
      case None => return false;
      case Some(nodes) =>
        var ring := Build(nodes);
        cache := cache[domain := CacheEntry(nodes, ring, now)];
        return true;
    }

    /** With a key: the node that serves it on the list now cached, which is never older than the
        cache lifetime. Nothing is returned only for an unknown domain, when a needed fetch fails, or
        when the registry lists no node. */
    method Resolve(domain: u32, key: Option<u32>, now: nat, reply: Option<seq<NodeId>>)
      returns (node: Option<NodeId>)
      requires Valid()
      modifies this
      ensures Valid()
      ensures var fresh_ := old(domain in cache && cache[domain].nodes != [] && now <= cache[domain].fetchedAt + 3_000_000_000);
              && (node.None? <==> domain !in {0x0100_0000, 0x0200_0000, 0x0300_0000}
                                  || (!fresh_ && (reply.None? || reply.value == [])))
              && (node.Some? && fresh_ ==> cache == old(cache))
              && (node.Some? && !fresh_ ==> domain in cache && cache[domain].nodes == reply.value && cache[domain].fetchedAt == now)
      ensures node.Some? ==> domain in cache && now <= cache[domain].fetchedAt + 3_000_000_000
      ensures node.Some? && key.Some? ==>
                exists i: nat :: Serves(cache[domain].nodes, key.value, i) && node.value == cache[domain].nodes[i]
      ensures node.Some? && key.None? ==> node.value == cache[domain].nodes[old(rr) % |cache[domain].nodes|]
      ensures rr == old(rr) + if node.Some? && key.None? then 1 else 0
    {
      if !KnownDomain(domain) {
        return None;
      }
      if NeedsFetch(domain, now) {
        var ok := Fetch(domain, now, reply);
        if !ok {
          return None;
        }
      }
      var e := cache[domain];
      if |e.nodes| == 0 {
        return None;
      }
      var idx;
      match key {
        case Some(k) =>
          idx := Pick(e.ring, e.nodes, k);
        case None =>
          idx := rr % |e.nodes|;
          rr := rr + 1;
      }
      return Some(e.nodes[idx]);
    }

    /** Finds a node of the cached list by its id. */
    method ResolveByNodeId(domain: u32, id: NodeId, now: nat, reply: Option<seq<NodeId>>) returns (node: Option<NodeId>)
      requires Valid()
      modifies this`cache
      ensures Valid()
      ensures node.Some? ==> node.value == id
      ensures node.Some? <==>
                && domain in {0x0100_0000, 0x0200_0000, 0x0300_0000}
                && (if old(domain in cache && cache[domain].nodes != [] && now <= cache[domain].fetchedAt + 3_000_000_000)
                    then id in old(cache)[domain].nodes
                    else reply.Some? && id in reply.value)
    {
      if !KnownDomain(domain) {
        return None;
      }
      if NeedsFetch(domain, now) {
        var ok := Fetch(domain, now, reply);
        if !ok {
          return None;
        }
      }
      return if id in cache[domain].nodes then Some(id) else None;
    }
  }
}
