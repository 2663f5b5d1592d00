/** Routing by session directory with a local cache, over any number of gateways
    (crates/grimoire-gateway/src/session.rs, crates/grimoire-svcfw/src/session_dir.rs). */
module RoutingModel {
  import opened Common

  const CACHE_NS := 15_000_000_000

  type NodeId = string

  /** A game session: its domain and number. */
  datatype Sid = Sid(domain: u32, session: u32)
  datatype Entry = Entry(node: NodeId, expires: nat)

  /** A domain is the high byte of a message id. */
  function DomainOf(code: byte): u32 {
    var c: int := code;
    c * 0x100_0000
  }

  /** One gateway's tables: which session a connection is bound to, and the cached hosts. */
  datatype Tables = Tables(bound: map<u32, Sid>, cache: map<Sid, Entry>)

  /** The directory is shared by all gateways and services; the clock never goes back. */
  datatype State = State(now: nat, directory: map<Sid, NodeId>, gateways: map<nat, Tables>)

  datatype Event =
    | HostBinds(k: Sid, node: NodeId)
    | EntryGoes(k: Sid)
    | ConnBinds(gw: nat, conn: u32, k: Sid)
    | Target(gw: nat, conn: u32, domain: u32, listed: set<NodeId>)
    | ForwardFails(gw: nat, conn: u32, domain: u32)
    | Advance(ns: nat)

  const EMPTY := State(0, map[], map[])

  /** What a routing step returns and leaves behind. */
  datatype Routed = Routed(node: Option<NodeId>, tables: Tables, directory: map<Sid, NodeId>)

  /** Forget a session whose host is gone: binding, cache and directory entry. */
  function Invalidate(t: Tables, directory: map<Sid, NodeId>, conn: u32, k: Sid): Routed {
    Routed(None, Tables(t.bound - {conn}, t.cache - {k}), directory - {k})
  }

  /** The host of the connection's session in this domain, if bound; `listed` are the nodes discovery
      knows for the domain. */
  function RouteTo(t: Tables, directory: map<Sid, NodeId>, conn: u32, domain: u32, now: nat, listed: set<NodeId>): Routed {
    if conn !in t.bound || t.bound[conn].domain != domain then Routed(None, t, directory)
    else
      var k := t.bound[conn];
      if k in t.cache && t.cache[k].expires > now then
        if t.cache[k].node in listed then Routed(Some(t.cache[k].node), t, directory)
        else Invalidate(t, directory, conn, k)
      else if k !in directory then Routed(None, t, directory)
      else if directory[k] in listed then
        Routed(Some(directory[k]), t.(cache := t.cache[k := Entry(directory[k], now + CACHE_NS)]), directory)
      else Invalidate(t, directory, conn, k)
  }

  /** A forward under a session binding failed: the session is forgotten. */
  function AfterFailure(t: Tables, directory: map<Sid, NodeId>, conn: u32, domain: u32): Routed {
    if conn in t.bound && t.bound[conn].domain == domain then Invalidate(t, directory, conn, t.bound[conn])
    else Routed(None, t, directory)
  }

  function TablesOf(s: State, gw: nat): Tables {
    if gw in s.gateways then s.gateways[gw] else Tables(map[], map[])
  }

  function Route(s: State, gw: nat, conn: u32, domain: u32, listed: set<NodeId>): Routed {
    RouteTo(TablesOf(s, gw), s.directory, conn, domain, s.now, listed)
  }

  function Put(s: State, gw: nat, r: Routed): State {
    s.(directory := r.directory, gateways := s.gateways[gw := r.tables])
  }

  function Apply(s: State, e: Event): State {
    match e
    case HostBinds(k, node) => s.(directory := s.directory[k := node])
    case EntryGoes(k) => s.(directory := s.directory - {k})
    case ConnBinds(gw, conn, k) =>
      var t := TablesOf(s, gw);
      s.(gateways := s.gateways[gw := t.(bound := t.bound[conn := k])])
    case Target(gw, conn, domain, listed) => Put(s, gw, Route(s, gw, conn, domain, listed))
    case ForwardFails(gw, conn, domain) => Put(s, gw, AfterFailure(TablesOf(s, gw), s.directory, conn, domain))
    case Advance(ns) => s.(now := s.now + ns)
  }

  function Run(es: seq<Event>): State
    decreases |es|
  {
    if es == [] then EMPTY else Apply(Run(es[..|es| - 1]), es[|es| - 1])
  }

  // ----- Bounded staleness -----

  /** After some prefix of the run, at clock reading `at`, the directory named this host. */
  ghost predicate HeldAt(es: seq<Event>, k: Sid, node: NodeId, at: nat) {
    exists i :: 0 <= i <= |es| && Held(Run(es[..i]), k, node, at)
  }

  predicate Held(s: State, k: Sid, node: NodeId, at: nat) {
    s.now == at && k in s.directory && s.directory[k] == node
  }

  lemma HeldLater(es: seq<Event>, e: Event, k: Sid, node: NodeId, at: nat)
    requires HeldAt(es, k, node, at)
    ensures HeldAt(es + [e], k, node, at)
  {
    var i :| 0 <= i <= |es| && Held(Run(es[..i]), k, node, at);
    assert (es + [e])[..i] == es[..i];
  }

  lemma HeldNow(es: seq<Event>, k: Sid)
    requires k in Run(es).directory
    ensures HeldAt(es, k, Run(es).directory[k], Run(es).now)
  {
    assert es[..|es|] == es;
  }

  /** An entry is in a cache, unchanged, before the step; or the step has just looked it up. */
  lemma CacheAfter(s: State, e: Event, gw: nat, k: Sid)
    requires k in TablesOf(Apply(s, e), gw).cache
    ensures var x := TablesOf(Apply(s, e), gw).cache[k];
            || (k in TablesOf(s, gw).cache && x == TablesOf(s, gw).cache[k])
            || (k in s.directory && x == Entry(s.directory[k], s.now + CACHE_NS))
  {}

  /** Every cache entry, on every gateway, was the directory's word exactly its lifetime before it expires. */
  lemma {:induction false} CachesAreFromTheDirectory(es: seq<Event>, gw: nat, k: Sid)
    requires k in TablesOf(Run(es), gw).cache
    ensures var x := TablesOf(Run(es), gw).cache[k]; x.expires >= 15_000_000_000 && HeldAt(es, k, x.node, x.expires - 15_000_000_000)
    decreases |es|
  {
    var pre, e := es[..|es| - 1], es[|es| - 1];
    assert es == pre + [e];
    CacheAfter(Run(pre), e, gw, k);
    var x := TablesOf(Run(es), gw).cache[k];
    if k in TablesOf(Run(pre), gw).cache && x == TablesOf(Run(pre), gw).cache[k] {
      CachesAreFromTheDirectory(pre, gw, k);
      HeldLater(pre, e, k, x.node, x.expires - CACHE_NS);
    } else {
      HeldNow(pre, k);
      HeldLater(pre, e, k, x.node, Run(pre).now);
    }
  }

  /** Whenever routing returns a node, the directory named that node for the connection's session at some
      instant less than 15 seconds ago, and discovery lists it. */
  lemma StalenessIsBounded(es: seq<Event>, gw: nat, conn: u32, domain: u32, listed: set<NodeId>)
    requires Route(Run(es), gw, conn, domain, listed).node.Some?
    ensures var s := Run(es); var node := Route(s, gw, conn, domain, listed).node.value; var t := TablesOf(s, gw);
            && conn in t.bound && t.bound[conn].domain == domain && node in listed
            && exists at: nat :: at <= s.now < at + 15_000_000_000 && HeldAt(es, t.bound[conn], node, at)
  {
    var s := Run(es);
    var t := TablesOf(s, gw);
    var k := t.bound[conn];
    var node := Route(s, gw, conn, domain, listed).node.value;
    if k in t.cache && t.cache[k].expires > s.now {
      CachesAreFromTheDirectory(es, gw, k);
      var at := t.cache[k].expires - CACHE_NS;
      HeldBeforeNow(es, k, node, at);
      assert at <= s.now < at + CACHE_NS && HeldAt(es, k, node, at);
    } else {
      HeldNow(es, k);
      assert HeldAt(es, k, node, s.now);
    }
  }

  lemma HeldBeforeNow(es: seq<Event>, k: Sid, node: NodeId, at: nat)
    requires HeldAt(es, k, node, at)
    ensures at <= Run(es).now
  {
    var i :| 0 <= i <= |es| && Held(Run(es[..i]), k, node, at);
    ClockGrows(es, i);
  }

  lemma {:induction false} ClockGrows(es: seq<Event>, i: nat)
    requires i <= |es|
    ensures Run(es[..i]).now <= Run(es).now
    decreases |es|
  {
    if i < |es| {
      var pre := es[..|es| - 1];
      assert pre[..i] == es[..i];
      ClockGrows(pre, i);
      assert Run(pre).now <= Apply(Run(pre), es[|es| - 1]).now;
    } else {
      assert es[..i] == es;
    }
  }

  /** Throughout the run the directory has named no host but this one for the session. */
  ghost predicate SingleHost(es: seq<Event>, k: Sid, host: NodeId) {
    forall i :: 0 <= i <= |es| ==> (k in Run(es[..i]).directory ==> Run(es[..i]).directory[k] == host)
  }

  /** If a session only ever has one host, every connection bound to it, on every gateway, is routed to that
      host or not by the directory at all. */
  lemma EverybodyMeetsAtTheHost(es: seq<Event>, host: NodeId, gw: nat, conn: u32, domain: u32, listed: set<NodeId>)
    requires conn in TablesOf(Run(es), gw).bound && SingleHost(es, TablesOf(Run(es), gw).bound[conn], host)
    ensures Route(Run(es), gw, conn, domain, listed).node in {None, Some(host)}
  {
    var r := Route(Run(es), gw, conn, domain, listed);
    if r.node.Some? {
      StalenessIsBounded(es, gw, conn, domain, listed);
      var k := TablesOf(Run(es), gw).bound[conn];
      var at: nat :| HeldAt(es, k, r.node.value, at);
      HeldIsHost(es, k, host, r.node.value, at);
    }
  }

  lemma HeldIsHost(es: seq<Event>, k: Sid, host: NodeId, node: NodeId, at: nat)
    requires SingleHost(es, k, host) && HeldAt(es, k, node, at)
    ensures node == host
  {
    var i :| 0 <= i <= |es| && Held(Run(es[..i]), k, node, at);
  }

  // ----- A bound connection reaches its host -----

  /** The connection is bound to this session, in this domain. */
  predicate Bound(t: Tables, conn: u32, domain: u32, k: Sid) {
    conn in t.bound && t.bound[conn] == k && k.domain == domain
  }

  predicate LiveEntry(t: Tables, k: Sid, now: nat) {
    k in t.cache && t.cache[k].expires > now
  }

  /** A live cache entry that names a listed node is what a bound connection gets, and nothing changes. */
  lemma CachedHostIsReturned(s: State, gw: nat, conn: u32, domain: u32, listed: set<NodeId>, k: Sid)
    requires Bound(TablesOf(s, gw), conn, domain, k) && LiveEntry(TablesOf(s, gw), k, s.now)
    requires TablesOf(s, gw).cache[k].node in listed
    ensures Route(s, gw, conn, domain, listed) == Routed(Some(TablesOf(s, gw).cache[k].node), TablesOf(s, gw), s.directory)
  {
  }

  /** Without a live entry the directory decides: a listed host is returned and cached in this gateway for
      fifteen seconds, and nothing else changes. */
  lemma LookedUpHostIsReturned(s: State, gw: nat, conn: u32, domain: u32, listed: set<NodeId>, k: Sid)
    requires Bound(TablesOf(s, gw), conn, domain, k) && !LiveEntry(TablesOf(s, gw), k, s.now)
    requires k in s.directory && s.directory[k] in listed
    ensures var t := Apply(s, Target(gw, conn, domain, listed));
            && Route(s, gw, conn, domain, listed).node == Some(s.directory[k])
            && TablesOf(t, gw).cache == TablesOf(s, gw).cache[k := Entry(s.directory[k], s.now + 15_000_000_000)]
            && TablesOf(t, gw).bound == TablesOf(s, gw).bound
            && t.directory == s.directory && t.now == s.now && forall g :: g != gw ==> TablesOf(t, g) == TablesOf(s, g)
  {
  }

  /** A connection not bound in the domain, or whose session nobody knows, gets nothing and changes nothing. */
  lemma NobodyToRouteTo(s: State, gw: nat, conn: u32, domain: u32, listed: set<NodeId>)
    requires forall k :: Bound(TablesOf(s, gw), conn, domain, k) ==> !LiveEntry(TablesOf(s, gw), k, s.now) && k !in s.directory
    ensures Route(s, gw, conn, domain, listed) == Routed(None, TablesOf(s, gw), s.directory)
  {
    var t := TablesOf(s, gw);
    assert conn in t.bound && t.bound[conn].domain == domain ==> Bound(t, conn, domain, t.bound[conn]);
  }

  /** In every run: a connection bound to a session that only ever had one host, which the directory still
      names and discovery still lists, is routed to exactly that host, on every gateway. */
  lemma BoundConnectionsReachTheHost(es: seq<Event>, host: NodeId, gw: nat, conn: u32, domain: u32, listed: set<NodeId>, k: Sid)
    requires Bound(TablesOf(Run(es), gw), conn, domain, k) && SingleHost(es, k, host)
    requires k in Run(es).directory && host in listed
    ensures Route(Run(es), gw, conn, domain, listed).node == Some(host)
  {
    var s := Run(es);
    assert es[..|es|] == es;
    if LiveEntry(TablesOf(s, gw), k, s.now) {
      CachesAreFromTheDirectory(es, gw, k);
      var x := TablesOf(s, gw).cache[k];
      HeldIsHost(es, k, host, x.node, x.expires - CACHE_NS);
      CachedHostIsReturned(s, gw, conn, domain, listed, k);
    } else {
      assert s.directory[k] == host;
      LookedUpHostIsReturned(s, gw, conn, domain, listed, k);
    }
  }

  lemma AfterAnother(es: seq<Event>, e: Event)
    ensures Run(es + [e]) == Apply(Run(es), e)
  {
    assert (es + [e])[..|es + [e]| - 1] == es;
  }

  /** Fifteen seconds outlive every cache entry. */
  lemma EntriesExpire(es: seq<Event>, gw: nat, k: Sid)
    ensures var s := Run(es + [Advance(15_000_000_000)]); !LiveEntry(TablesOf(s, gw), k, s.now)
  {
    AfterAnother(es, Advance(CACHE_NS));
    if k in TablesOf(Run(es), gw).cache {
      var x := TablesOf(Run(es), gw).cache[k];
      CachesAreFromTheDirectory(es, gw, k);
      HeldBeforeNow(es, k, x.node, x.expires - CACHE_NS);
    }
  }

  /** A failed forward of a connection bound in the domain forgets the session on this gateway and in the
      directory; without such a binding it changes nothing. */
  lemma FailedForwardForgets(s: State, gw: nat, conn: u32, domain: u32, k: Sid)
    ensures Bound(TablesOf(s, gw), conn, domain, k) ==>
              var t := Apply(s, ForwardFails(gw, conn, domain));
              && TablesOf(t, gw) == Tables(TablesOf(s, gw).bound - {conn}, TablesOf(s, gw).cache - {k})
              && t.directory == s.directory - {k} && t.now == s.now && forall g :: g != gw ==> TablesOf(t, g) == TablesOf(s, g)
    ensures (forall j :: !Bound(TablesOf(s, gw), conn, domain, j)) ==>
              var t := Apply(s, ForwardFails(gw, conn, domain));
              t.directory == s.directory && t.now == s.now && forall g :: TablesOf(t, g) == TablesOf(s, g)
  {
    var t := TablesOf(s, gw);
    assert conn in t.bound && t.bound[conn].domain == domain ==> Bound(t, conn, domain, t.bound[conn]);
  }

  /** When a session moves to another host, fifteen seconds later every gateway routes to that one,
      whatever happened before and whatever the caches said. */
  lemma NewHostIsReached(es: seq<Event>, gw: nat, conn: u32, k: Sid, host: NodeId, listed: set<NodeId>)
    requires host in listed
    ensures var later := es + [ConnBinds(gw, conn, k)] + [HostBinds(k, host)] + [Advance(15_000_000_000)];
            Route(Run(later), gw, conn, k.domain, listed).node == Some(host)
  {
    var bound := es + [ConnBinds(gw, conn, k)];
    var moved := bound + [HostBinds(k, host)];
    AfterAnother(es, ConnBinds(gw, conn, k));
    AfterAnother(bound, HostBinds(k, host));
    AfterAnother(moved, Advance(CACHE_NS));
    EntriesExpire(moved, gw, k);
    LookedUpHostIsReturned(Run(moved + [Advance(CACHE_NS)]), gw, conn, k.domain, listed, k);
  }

  /** And when the directory has lost a session for fifteen seconds, nobody is routed by it any more. */
  lemma LostSessionIsNotRouted(es: seq<Event>, gw: nat, conn: u32, k: Sid, listed: set<NodeId>)
    ensures var later := es + [ConnBinds(gw, conn, k)] + [EntryGoes(k)] + [Advance(15_000_000_000)];
            Route(Run(later), gw, conn, k.domain, listed) == Routed(None, TablesOf(Run(later), gw), Run(later).directory)
  {
    var bound := es + [ConnBinds(gw, conn, k)];
    var lost := bound + [EntryGoes(k)];
    AfterAnother(es, ConnBinds(gw, conn, k));
    AfterAnother(bound, EntryGoes(k));
    AfterAnother(lost, Advance(CACHE_NS));
    EntriesExpire(lost, gw, k);
    NobodyToRouteTo(Run(lost + [Advance(CACHE_NS)]), gw, conn, k.domain, listed);
  }

  /** The host this gateway would use for the connection's session is not listed any more. */
  predicate HostIsDead(t: Tables, directory: map<Sid, NodeId>, conn: u32, domain: u32, now: nat, listed: set<NodeId>) {
    && conn in t.bound && t.bound[conn].domain == domain
    && var k := t.bound[conn];
       if k in t.cache && t.cache[k].expires > now then t.cache[k].node !in listed
       else k in directory && directory[k] !in listed
  }

  /** A bound connection whose session's host is gone is set free: one routing step forgets binding, cache
      and directory entry, and the next one finds no binding. */
  lemma DeadHostIsForgotten(s: State, gw: nat, conn: u32, domain: u32, listed: set<NodeId>)
    requires HostIsDead(TablesOf(s, gw), s.directory, conn, domain, s.now, listed)
    ensures var k := TablesOf(s, gw).bound[conn]; var t := Apply(s, Target(gw, conn, domain, listed));
            && Route(s, gw, conn, domain, listed).node == None
            && conn !in TablesOf(t, gw).bound && k !in TablesOf(t, gw).cache && k !in t.directory
            && forall g :: g != gw ==> TablesOf(t, g) == TablesOf(s, g)
  {}
}

/** One gateway's routing tables, and the shared directory, as the program updates them. */
module SessionRouting {
  import opened Common
  import opened RoutingModel

  class Directory {
    var entries: map<Sid, NodeId>

    constructor ()
      ensures entries == map[]
    {
      entries := map[];
    }

    method Lookup(k: Sid) returns (node: Option<NodeId>)
      ensures node == if k in entries then Some(entries[k]) else None
    {
      node := if k in entries then Some(entries[k]) else None;
    }

    method Remove(k: Sid)
      modifies this
      ensures entries == old(entries) - {k}
    {
      entries := entries - {k};
    }
  }

  class Gateway {
    const directory: Directory
    var connSession: map<u32, Sid>
    var sessionCache: map<Sid, Entry>

    function Model(): Tables
      reads this
    {
      Tables(connSession, sessionCache)
    }

    constructor (directory: Directory)
      ensures Model() == Tables(map[], map[]) && this.directory == directory
    {
      this.directory := directory;
      connSession, sessionCache := map[], map[];
    }

    /** A bind frame: one byte of domain and four of session number. Anything else is refused. */
    method BindSession(conn: u32, payload: seq<byte>) returns (ok: bool)
      modifies this
      ensures ok <==> |payload| == 5
      ensures !ok ==> Model() == old(Model())
      ensures ok ==>
        Model() == old(Model()).(bound := old(connSession)[conn := Sid(DomainOf(payload[0]), FromBe32(payload[1..]))])
      ensures ok ==> connSession == old(connSession)[conn := Sid((payload[0] as int) * 0x100_0000, BigEndianAt(payload, 1))]
    {
      if |payload| != 5 {
        return false;
      }
      SessionNumber(payload);
      connSession := connSession[conn := Sid(DomainOf(payload[0]), FromBe32(payload[1..]))];
      return true;
    }

    lemma SessionNumber(payload: seq<byte>)
      requires |payload| == 5
      ensures FromBe32(payload[1..]) == BigEndianAt(payload, 1)
    {
      ReadsBigEndian(payload[1..]);
      assert forall k :: 0 <= k < 4 ==> payload[1..][k] == payload[k + 1];
    }

    method InvalidateSession(conn: u32, k: Sid)
      modifies this, directory
      ensures Routed(None, Model(), directory.entries) == Invalidate(old(Model()), old(directory.entries), conn, k)
      ensures connSession == old(connSession) - {conn} && sessionCache == old(sessionCache) - {k}
      ensures directory.entries == old(directory.entries) - {k}
    {
      connSession := connSession - {conn};
      sessionCache := sessionCache - {k};
      directory.Remove(k);
    }

    method SessionTargetNode(conn: u32, domain: u32, now: nat, listed: set<NodeId>) returns (node: Option<NodeId>)
      modifies this, directory
      ensures Routed(node, Model(), directory.entries)
              == RouteTo(old(Model()), old(directory.entries), conn, domain, now, listed)
      ensures !(conn in old(connSession) && old(connSession)[conn].domain == domain) ==>
                node == None && connSession == old(connSession) && sessionCache == old(sessionCache)
                && directory.entries == old(directory.entries)
      ensures conn in old(connSession) && old(connSession)[conn].domain == domain ==>
                var k := old(connSession)[conn];
                var cached := k in old(sessionCache) && old(sessionCache)[k].expires > now;
                var host := if cached then Some(old(sessionCache)[k].node)
                            else if k in old(directory.entries) then Some(old(directory.entries)[k]) else None;
                if host.Some? && host.value in listed then
                  && node == host && connSession == old(connSession) && directory.entries == old(directory.entries)
                  && sessionCache == (if cached then old(sessionCache)
                                      else old(sessionCache)[k := Entry(host.value, now + 15_000_000_000)])
                else if host.Some? then
                  && node == None && connSession == old(connSession) - {conn} && sessionCache == old(sessionCache) - {k}
                  && directory.entries == old(directory.entries) - {k}
                else
                  && node == None && connSession == old(connSession) && sessionCache == old(sessionCache)
                  && directory.entries == old(directory.entries)
    {
      if conn !in connSession {
        return None;
      }
      var k := connSession[conn];
      if k.domain != domain {
        return None;
      }
      if k in sessionCache {
        var e := sessionCache[k];
        if e.expires > now {
          if e.node in listed {
            return Some(e.node);
          }
          InvalidateSession(conn, k);
          return None;
        }
      }
      var found := directory.Lookup(k);
      match found
      case None => return None;
      case Some(host) =>
        if host in listed {
          sessionCache := sessionCache[k := Entry(host, now + CACHE_NS)];
          return Some(host);
        }
        InvalidateSession(conn, k);
        return None;
    }

    /** A forward task failed. */
    method ForwardFailed(conn: u32, domain: u32)
      modifies this, directory
      ensures Routed(None, Model(), directory.entries) == AfterFailure(old(Model()), old(directory.entries), conn, domain)
      ensures var hit := conn in old(connSession) && old(connSession)[conn].domain == domain;
              var gone := if hit then {old(connSession)[conn]} else {};
              && connSession == old(connSession) - (if hit then {conn} else {})
              && sessionCache == old(sessionCache) - gone && directory.entries == old(directory.entries) - gone
    {
      if conn in connSession {
        var k := connSession[conn];
        if k.domain == domain {
          InvalidateSession(conn, k);
        }
      }
    }
  }
}
