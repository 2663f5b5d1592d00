/** The registry's table as the program updates it (crates/grimoire-registry/src/memory_backend.rs).
    The clock is a parameter. */
module RegistryService {
  import opened Common
  import opened RegistryModel

  class RegistryState {
    var services: Services

    constructor ()
      ensures services == map[]
    {
      services := map[];
    }

    method Register(now: nat, service: string, node: string, addr: string, meta: map<string, string>, ttl: int)
      modifies this
      ensures State(now, services) ==
              Apply(State(now, old(services)), Event.Register(service, node, addr, meta, ttl))
      ensures forall s, n :: Find(services, s, n) ==
                if s == service && n == node then Some(Record(addr, meta, now + (if ttl > 0 then ttl else 10) * 1_000_000_000))
                else Find(old(services), s, n)
    {
      var granted := if ttl > 0 then ttl else DEFAULT_TTL;
      var nodes := map[];
      if service in services {
        nodes := services[service];
      }
      services := services[service := nodes[node := Record(addr, meta, Expiry(now, granted))]];
    }

    method Heartbeat(now: nat, service: string, node: string) returns (ok: bool)
      modifies this
      ensures ok <==> Knows(old(services), service, node)
      ensures State(now, services) == Apply(State(now, old(services)), Event.Heartbeat(service, node))
      ensures ok <==> Find(old(services), service, node).Some?
      ensures forall s, n :: Find(services, s, n) ==
                if ok && s == service && n == node
                then Some(Find(old(services), s, n).value.(expires := now + 10_000_000_000))
                else Find(old(services), s, n)
    {
      if service !in services || node !in services[service] {
        return false;
      }
      var record := services[service][node].(expires := Expiry(now, DEFAULT_TTL));
      services := services[service := services[service][node := record]];
      return true;
    }

    method Unregister(service: string, node: string)
      modifies this
      ensures services == Remove(old(services), service, node)
      ensures forall s, n :: Find(services, s, n) == if s == service && n == node then None else Find(old(services), s, n)
    {
      if service in services {
        services := services[service := services[service] - {node}];
      }
    }

    /** Every node of the service once, in whatever order the table is walked. */
    method Discover(service: string) returns (found: seq<NodeInfo>)
      ensures forall i :: i in found <==> i in RegistryModel.Discover(services, service)
      ensures forall i, j :: 0 <= i < j < |found| ==> found[i].id != found[j].id
      ensures forall n, addr, meta :: NodeInfo(n, addr, meta) in found
                <==> service in services && n in services[service]
                     && services[service][n].addr == addr && services[service][n].meta == meta
    {
      found := [];
      if service !in services {
        return;
      }
      var nodes := services[service];
      var left := nodes.Keys;
      while left != {}
        invariant left <= nodes.Keys
        invariant forall i <- found :: i.id in nodes && i.id !in left && i == Info(i.id, nodes[i.id])
        invariant forall n <- nodes :: n in left || Info(n, nodes[n]) in found
        invariant forall i, j :: 0 <= i < j < |found| ==> found[i].id != found[j].id
      {
        var n :| n in left;
        found := found + [Info(n, nodes[n])];
        left := left - {n};
      }
    }

    /** One round of the sweeper. */
    method Sweep(now: nat)
      modifies this
      ensures State(now, services) == Apply(State(now, old(services)), Event.Sweep)
      ensures forall s, n :: Find(services, s, n) ==
                var before := Find(old(services), s, n);
                if before.Some? && before.value.expires > now then before else None
    {
      var left := services.Keys;
      while left != {}
        invariant left <= services.Keys == old(services).Keys
        invariant forall k <- services ::
          services[k] == if k in left then old(services)[k] else Retain(old(services)[k], now)
      {
        var service :| service in left;
        services := services[service := Retain(services[service], now)];
        left := left - {service};
      }
    }
  }
}
