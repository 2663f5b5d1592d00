/** Node leases in the registry's memory backend (crates/grimoire-registry/src/memory_backend.rs).
    Times are nanoseconds of a clock that never goes back. */
module RegistryModel {
  import opened Common

  const SECOND := 1_000_000_000
  const DEFAULT_TTL := 10
  const LEASE := DEFAULT_TTL * SECOND

  datatype Record = Record(addr: string, meta: map<string, string>, expires: nat)
  datatype NodeInfo = NodeInfo(id: string, addr: string, meta: map<string, string>)
  type Services = map<string, map<string, Record>>

  datatype State = State(now: nat, services: Services)

  datatype Event =
    | Register(service: string, node: string, addr: string, meta: map<string, string>, ttl: int)
    | Heartbeat(service: string, node: string)
    | Unregister(service: string, node: string)
    | Sweep
    | Advance(ns: nat)

  // ----- What each operation does -----

  function Expiry(now: nat, ttl: int): nat {
    now + (if ttl < 1 then 1 else ttl) * SECOND
  }

  function Insert(ss: Services, service: string, node: string, r: Record): Services {
    ss[service := (if service in ss then ss[service] else map[])[node := r]]
  }

  predicate Knows(ss: Services, service: string, node: string) {
    service in ss && node in ss[service]
  }

  function Renew(ss: Services, service: string, node: string, expires: nat): Services {
    if !Knows(ss, service, node) then ss
    else ss[service := ss[service][node := ss[service][node].(expires := expires)]]
  }

  function Remove(ss: Services, service: string, node: string): Services {
    if service in ss then ss[service := ss[service] - {node}] else ss
  }

  /** Keep the nodes whose lease has not run out. */
  function Retain(nodes: map<string, Record>, now: nat): map<string, Record> {
    map n | n in nodes && nodes[n].expires > now :: nodes[n]
  }

  function SweepAll(ss: Services, now: nat): Services {
    map service | service in ss :: Retain(ss[service], now)
  }

  function Discover(ss: Services, service: string): set<NodeInfo> {
    if service in ss then set n | n in ss[service] :: Info(n, ss[service][n]) else {}
  }

  function Info(node: string, r: Record): NodeInfo {
    NodeInfo(node, r.addr, r.meta)
  }

  function Apply(s: State, e: Event): State {
    match e
    case Register(service, node, addr, meta, ttl) =>
      var r := Record(addr, meta, Expiry(s.now, if ttl > 0 then ttl else DEFAULT_TTL));
      s.(services := Insert(s.services, service, node, r))
    case Heartbeat(service, node) => s.(services := Renew(s.services, service, node, Expiry(s.now, DEFAULT_TTL)))
    case Unregister(service, node) => s.(services := Remove(s.services, service, node))
    case Sweep => s.(services := SweepAll(s.services, s.now))
    case Advance(ns) => s.(now := s.now + ns)
  }

  function Run(s: State, es: seq<Event>): State {
    if es == [] then s else Apply(Run(s, es[..|es| - 1]), es[|es| - 1])
  }

  /** The record of a node, if it is in the table. */
  function Find(ss: Services, service: string, node: string): Option<Record> {
    if service in ss && node in ss[service] then Some(ss[service][node]) else None
  }

  // ----- When a lease is kept -----

  /** The node is neither registered again nor unregistered; anything else may happen. */
  predicate OnlyBeats(es: seq<Event>, service: string, node: string) {
    forall e <- es :: e.Register? || e.Unregister? ==> e.service != service || e.node != node
  }

  /** When the lease runs out if every heartbeat of the run renews it. */
  function Deadline(s: State, es: seq<Event>, service: string, node: string): nat
    requires Knows(s.services, service, node)
  {
    if es == [] then s.services[service][node].expires
    else
      var earlier := es[..|es| - 1];
      if es[|es| - 1] == Heartbeat(service, node) then Run(s, earlier).now + LEASE
      else Deadline(s, earlier, service, node)
  }

  /** No sweep of the run comes at or after the deadline of its time. */
  predicate SweepsAreInTime(s: State, es: seq<Event>, service: string, node: string)
    requires Knows(s.services, service, node)
  {
    if es == [] then true
    else
      var earlier := es[..|es| - 1];
      && SweepsAreInTime(s, earlier, service, node)
      && (es[|es| - 1] == Sweep ==> Run(s, earlier).now < Deadline(s, earlier, service, node))
  }

  /** A node stays listed, under the address it registered, exactly as long as no sweep finds its
      latest renewal a whole lease old; other nodes and services never matter. */
  lemma {:induction false} ListedWhileRenewed(s: State, es: seq<Event>, service: string, node: string)
    requires Knows(s.services, service, node) && OnlyBeats(es, service, node)
    ensures var t := Run(s, es).services; var r := s.services[service][node];
      && (Knows(t, service, node) <==> SweepsAreInTime(s, es, service, node))
      && (Knows(t, service, node) ==> t[service][node] == r.(expires := Deadline(s, es, service, node)))
      && (Knows(t, service, node) <==> exists i :: i in Discover(t, service) && i.id == node)
      && (Knows(t, service, node) ==> Info(node, r) in Discover(t, service))
  {
    if es == [] {
      assert Info(node, s.services[service][node]) in Discover(s.services, service);
    } else {
      var before := Run(s, es[..|es| - 1]);
      ListedWhileRenewed(s, es[..|es| - 1], service, node);
      var e := es[|es| - 1];
      assert e in es;
      OtherEventsLeaveItAlone(before, e, service, node);
      var t := Run(s, es).services;
      if Knows(t, service, node) {
        assert Info(node, t[service][node]) in Discover(t, service);
      }
    }
  }

  /** What one event does to one node's record. */
  lemma OtherEventsLeaveItAlone(s: State, e: Event, service: string, node: string)
    requires e.Register? || e.Unregister? ==> e.service != service || e.node != node
    ensures var t := Apply(s, e).services;
      && (Knows(t, service, node) <==>
            Knows(s.services, service, node) && (e == Sweep ==> s.services[service][node].expires > s.now))
      && (Knows(t, service, node) && e != Heartbeat(service, node) ==>
            t[service][node] == s.services[service][node])
      && (Knows(t, service, node) && e == Heartbeat(service, node) ==>
            t[service][node] == s.services[service][node].(expires := s.now + LEASE))
  {
  }

  /** The time of the latest sweep of the run, or its start. */
  function LastSweep(s: State, es: seq<Event>): nat {
    if es == [] then s.now
    else if es[|es| - 1] == Sweep then Run(s, es[..|es| - 1]).now
    else LastSweep(s, es[..|es| - 1])
  }

  lemma {:induction false} TimeMovesOn(s: State, es: seq<Event>)
    ensures s.now <= LastSweep(s, es) <= Run(s, es).now
  {
    if es != [] {
      TimeMovesOn(s, es[..|es| - 1]);
    }
  }

  lemma {:induction false} LatestSweepWasInTime(s: State, es: seq<Event>, service: string, node: string)
    requires Knows(s.services, service, node) && SweepsAreInTime(s, es, service, node)
    requires s.now < s.services[service][node].expires
    ensures LastSweep(s, es) < Deadline(s, es, service, node)
  {
    if es == [] {
    } else {
      LatestSweepWasInTime(s, es[..|es| - 1], service, node);
      TimeMovesOn(s, es[..|es| - 1]);
    }
  }

  /** A silent node is listed for at most its lease and one sweep gap. */
  lemma GoneSoonAfter(s: State, es: seq<Event>, service: string, node: string, gap: nat)
    requires Knows(s.services, service, node) && OnlyBeats(es, service, node)
    requires s.now < s.services[service][node].expires
    requires Run(s, es).now <= LastSweep(s, es) + gap
    ensures Knows(Run(s, es).services, service, node) ==> Run(s, es).now < Deadline(s, es, service, node) + gap
  {
    ListedWhileRenewed(s, es, service, node);
    if Knows(Run(s, es).services, service, node) {
      LatestSweepWasInTime(s, es, service, node);
    }
  }

  // ----- How many lost heartbeats a lease survives -----

  /** The heartbeat period, in seconds, of a node that asks for this TTL. */
  function Period(ttl: int): nat {
    (if ttl < 3 then 3 else ttl) / 3
  }

  /** A third of the TTL, rounded down, but never less than a second. */
  lemma PeriodIsAThird(ttl: int)
    ensures Period(ttl) >= 1
    ensures ttl >= 3 ==> 3 * Period(ttl) <= ttl < 3 * Period(ttl) + 3
    ensures ttl < 3 ==> Period(ttl) == 1
  {
  }

  /** When a heartbeat arrives, by its number; `None` for one that is lost. */
  datatype Arrival = Lost | At(time: nat)
  type Arrivals = nat -> Arrival

  /** Beat k is sent k periods after the start and, unless lost, takes no longer than the jitter. */
  ghost predicate OnSchedule(beats: Arrivals, start: nat, ttl: int, jitter: nat) {
    forall k: nat :: beats(k).At? ==>
      start + k * Period(ttl) * SECOND <= beats(k).time <= start + k * Period(ttl) * SECOND + jitter
  }

  /** Of any `lost + 1` successive beats, at least one arrives. */
  ghost predicate LosesAtMost(beats: Arrivals, lost: nat) {
    forall k: nat :: SomeArrives(beats, k, lost)
  }

  ghost predicate SomeArrives(beats: Arrivals, first: nat, lost: nat) {
    exists j: nat :: first <= j <= first + lost && beats(j).At?
  }

  /** Some heartbeat of the node is handled at this time. */
  ghost predicate HeartbeatAt(s: State, es: seq<Event>, service: string, node: string, time: nat) {
    exists i :: 0 <= i < |es| && BeatsAt(s, es, service, node, i, time)
  }

  predicate BeatsAt(s: State, es: seq<Event>, service: string, node: string, i: nat, time: nat)
    requires i < |es|
  {
    es[i] == Heartbeat(service, node) && Run(s, es[..i]).now == time
  }

  /** Every later beat that arrives before the end of the run is handled in it, when it arrives. */
  ghost predicate Heard(s: State, es: seq<Event>, service: string, node: string, beats: Arrivals) {
    forall k: nat :: k > 0 && beats(k).At? && beats(k).time < Run(s, es).now ==>
      HeartbeatAt(s, es, service, node, beats(k).time)
  }

  ghost predicate HeardThroughout(s: State, es: seq<Event>, service: string, node: string, beats: Arrivals) {
    forall n :: 0 <= n <= |es| ==> Heard(s, es[..n], service, node, beats)
  }

  lemma {:induction false} BeatRenews(s: State, es: seq<Event>, service: string, node: string, i: nat, time: nat)
    requires Knows(s.services, service, node) && i < |es| && BeatsAt(s, es, service, node, i, time)
    ensures Deadline(s, es, service, node) >= time + 10_000_000_000
    decreases |es|
  {
    var earlier := es[..|es| - 1];
    if i < |earlier| {
      assert earlier[..i] == es[..i];
      BeatRenews(s, earlier, service, node, i, time);
      PrefixIsEarlier(s, earlier, i);
    } else {
      assert es[..i] == earlier;
    }
  }

  lemma {:induction false} PrefixIsEarlier(s: State, es: seq<Event>, i: nat)
    requires i <= |es|
    ensures Run(s, es[..i]).now <= Run(s, es).now
    decreases |es|
  {
    if i < |es| {
      var earlier := es[..|es| - 1];
      assert earlier[..i] == es[..i];
      PrefixIsEarlier(s, earlier, i);
    } else {
      assert es[..i] == es;
    }
  }

  /** A beat that arrived before now has put the deadline a whole lease after it. */
  lemma HeardBeatRenews(s: State, es: seq<Event>, service: string, node: string, beats: Arrivals, k: nat)
    requires Knows(s.services, service, node) && s.services[service][node].expires == s.now + LEASE
    requires beats(0) == At(s.now) && Heard(s, es, service, node, beats)
    requires beats(k).At? && beats(k).time < Run(s, es).now
    ensures Deadline(s, es, service, node) >= beats(k).time + 10_000_000_000
  {
    if k == 0 {
      DeadlinesStayAhead(s, es, service, node);
    } else {
      var i :| 0 <= i < |es| && BeatsAt(s, es, service, node, i, beats(k).time);
      BeatRenews(s, es, service, node, i, beats(k).time);
    }
  }

  /** The run of a node renewed just now, whose later beats follow this schedule with such losses. */
  ghost predicate Renewing(s: State, es: seq<Event>, service: string, node: string, beats: Arrivals,
                           ttl: int, lost: nat, jitter: nat) {
    && Knows(s.services, service, node) && s.services[service][node].expires == s.now + LEASE
    && OnlyBeats(es, service, node)
    && beats(0) == At(s.now) && OnSchedule(beats, s.now, ttl, jitter) && LosesAtMost(beats, lost)
    && HeardThroughout(s, es, service, node, beats)
  }

  ghost predicate Survives(ttl: int, lost: nat, jitter: nat) {
    forall s, es, service, node, beats :: Renewing(s, es, service, node, beats, ttl, lost, jitter) ==>
      Knows(Run(s, es).services, service, node)
  }

  /** The longest a node can go without being heard. */
  function WorstGap(ttl: int, lost: nat, jitter: nat): nat {
    (lost + 1) * (Period(ttl) * SECOND) + jitter
  }

  /** At any time, some beat was heard no more than the worst gap ago. */
  lemma HeardRecently(beats: Arrivals, start: nat, ttl: int, lost: nat, jitter: nat, now: nat) returns (j: nat)
    requires OnSchedule(beats, start, ttl, jitter) && LosesAtMost(beats, lost) && beats(0) == At(start) && start < now
    ensures beats(j).At? && beats(j).time < now && now <= beats(j).time + WorstGap(ttl, lost, jitter)
  {
    var p := Period(ttl) * SECOND;
    j := 0;
    if now > start + WorstGap(ttl, lost, jitter) {
      // The newest beat sure to have arrived, if it was not lost.
      var k := (now - start - jitter - 1) / p;
      DivisionBounds(now - start - jitter - 1, p, k);
      NewestIsLate(k, lost, p, now - start - jitter - 1);
      assert SomeArrives(beats, k - lost, lost);
      j :| k - lost <= j <= k && beats(j).At?;
      SpacedBeats(j, k, lost, p);
      SamePeriods(j, ttl);
    }
  }

  lemma SamePeriods(j: nat, ttl: int)
    ensures j * Period(ttl) * SECOND == j * (Period(ttl) * SECOND)
  {
  }

  lemma DivisionBounds(x: nat, p: nat, k: nat)
    requires p > 0 && k == x / p
    ensures k * p <= x < (k + 1) * p
  {
  }

  lemma NewestIsLate(k: nat, lost: nat, p: nat, x: nat)
    requires x >= (lost + 1) * p && x < (k + 1) * p
    ensures k >= lost
  {
    if k < lost {
      Multiples(k + 1, lost + 1, p);
    }
  }

  lemma SpacedBeats(j: nat, k: nat, lost: nat, p: nat)
    requires k <= j + lost && j <= k
    ensures j * p <= k * p && (k + 1) * p <= j * p + (lost + 1) * p
  {
    Multiples(j, k, p);
    Multiples(k + 1, j + lost + 1, p);
  }

  lemma Multiples(a: nat, b: nat, p: nat)
    requires a <= b
    ensures a * p <= b * p
  {
  }

  lemma {:induction false} AlwaysInTime(s: State, es: seq<Event>, service: string, node: string, beats: Arrivals,
                     ttl: int, lost: nat, jitter: nat)
    requires Renewing(s, es, service, node, beats, ttl, lost, jitter) && WorstGap(ttl, lost, jitter) < LEASE
    ensures SweepsAreInTime(s, es, service, node)
  {
    if es == [] {
    } else {
      var earlier := es[..|es| - 1];
      assert forall n :: 0 <= n <= |earlier| ==> earlier[..n] == es[..n];
      AlwaysInTime(s, earlier, service, node, beats, ttl, lost, jitter);
      var now := Run(s, earlier).now;
      assert es[..|earlier|] == earlier && Heard(s, earlier, service, node, beats);
      TimeMovesOn(s, earlier);
      if now > s.now {
        var j := HeardRecently(beats, s.now, ttl, lost, jitter, now);
        HeardBeatRenews(s, earlier, service, node, beats, j);
      } else {
        DeadlinesStayAhead(s, earlier, service, node);
      }
    }
  }

  lemma {:induction false} DeadlinesStayAhead(s: State, es: seq<Event>, service: string, node: string)
    requires Knows(s.services, service, node) && s.services[service][node].expires >= s.now + LEASE
    ensures Deadline(s, es, service, node) >= s.now + LEASE
  {
    if es != [] {
      DeadlinesStayAhead(s, es[..|es| - 1], service, node);
      TimeMovesOn(s, es[..|es| - 1]);
    }
  }

  function LateRun(): seq<Event> {
    [Advance(LEASE), Sweep]
  }

  lemma LateRunEvicts(s: State, service: string, node: string)
    requires Knows(s.services, service, node) && s.services[service][node].expires == s.now + LEASE
    ensures OnlyBeats(LateRun(), service, node) && !SweepsAreInTime(s, LateRun(), service, node)
    ensures forall n :: 0 <= n <= 2 ==>
      Run(s, LateRun()[..n]).now <= s.now + LEASE && Deadline(s, LateRun()[..n], service, node) == s.now + LEASE
  {
    var es := LateRun();
    assert es[..0] == [] && es[..2] == es && es[..1] == [Advance(LEASE)] && [Advance(LEASE)][..0] == [];
    assert Run(s, es[..1]) == Apply(s, Advance(LEASE));
    assert Run(s, es) == Apply(Run(s, es[..1]), Sweep);
    forall n | 0 <= n <= 2
      ensures Run(s, es[..n]).now <= s.now + LEASE && Deadline(s, es[..n], service, node) == s.now + LEASE
    {
      assert n == 0 || n == 1 || n == 2;
    }
  }

  /** The run in which the beat after the losses comes too late. */
  lemma TooManyLosses(ttl: int, lost: nat, jitter: nat)
    requires WorstGap(ttl, lost, jitter) >= LEASE
    ensures !Survives(ttl, lost, jitter)
  {
    var s := State(0, map["s" := map["n" := Record("", map[], LEASE)]]);
    var p := Period(ttl) * SECOND;
    var beats: Arrivals := k => if k == 0 then At(0) else if k <= lost then Lost else At(k * p + jitter);
    LateSchedule(beats, ttl, lost, jitter);
    LateRunEvicts(s, "s", "n");
    LateBeatsAreNotDue(beats, ttl, lost, jitter);
    assert HeardThroughout(s, LateRun(), "s", "n", beats);
    assert Renewing(s, LateRun(), "s", "n", beats, ttl, lost, jitter);
    ListedWhileRenewed(s, LateRun(), "s", "n");
  }

  ghost predicate IsLate(beats: Arrivals, ttl: int, lost: nat, jitter: nat) {
    && beats(0) == At(0)
    && (forall k: nat :: 0 < k <= lost ==> beats(k) == Lost)
    && (forall k: nat :: k > 0 && k > lost ==> beats(k) == At(k * (Period(ttl) * SECOND) + jitter))
  }

  lemma LateBeatsAreNotDue(beats: Arrivals, ttl: int, lost: nat, jitter: nat)
    requires IsLate(beats, ttl, lost, jitter) && WorstGap(ttl, lost, jitter) >= LEASE
    ensures forall k: nat :: k > 0 && beats(k).At? ==> beats(k).time >= LEASE
  {
    forall k: nat | k > 0 && beats(k).At? ensures beats(k).time >= LEASE {
      Multiples(lost + 1, k, Period(ttl) * SECOND);
    }
  }

  lemma LateSchedule(beats: Arrivals, ttl: int, lost: nat, jitter: nat)
    requires IsLate(beats, ttl, lost, jitter)
    ensures OnSchedule(beats, 0, ttl, jitter) && LosesAtMost(beats, lost)
  {
    forall k: nat | beats(k).At?
      ensures k * Period(ttl) * SECOND <= beats(k).time <= k * Period(ttl) * SECOND + jitter
    {
      SamePeriods(k, ttl);
    }
    forall k: nat ensures SomeArrives(beats, k, lost) {
      var j := if k == 0 then 0 else k + lost;
      assert beats(j).At?;
    }
  }

  /** Losing this many beats in a row is survived in every run exactly when the beat after
      them is sure to come within the lease. The lease is the registry's, not the one asked for. */
  lemma LossesSurvivedExactly(ttl: int, lost: nat, jitter: nat)
    ensures Survives(ttl, lost, jitter) <==> WorstGap(ttl, lost, jitter) < LEASE
  {
    if WorstGap(ttl, lost, jitter) < LEASE {
      forall s, es, service, node, beats | Renewing(s, es, service, node, beats, ttl, lost, jitter)
        ensures Knows(Run(s, es).services, service, node)
      {
        AlwaysInTime(s, es, service, node, beats, ttl, lost, jitter);
        ListedWhileRenewed(s, es, service, node);
      }
    } else {
      TooManyLosses(ttl, lost, jitter);
    }
  }

  /** The services' own TTL of ten survives two lost beats in a row, but not three; and a node that
      asks for half a minute or more can be evicted although no beat is lost. */
  lemma TwoLossesButNotThree(jitter: nat)
    ensures Survives(10, 2, jitter) <==> jitter < SECOND
    ensures !Survives(10, 3, jitter)
    ensures forall ttl :: ttl >= 30 ==> !Survives(ttl, 0, jitter)
  {
    LossesSurvivedExactly(10, 2, jitter);
    LossesSurvivedExactly(10, 3, jitter);
    forall ttl | ttl >= 30 ensures !Survives(ttl, 0, jitter) {
      LossesSurvivedExactly(ttl, 0, jitter);
    }
  }
}
