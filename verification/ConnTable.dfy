/** The gateway's table of connections: accept, resume, close, grace timer and kick
    (crates/grimoire-gateway/src/session.rs, crates/grimoire-common/src/lib.rs). */
module ConnTableModel {
  import opened Common

  const GRACE_NS := 8_000_000_000
  const LOCAL_IDS := 0x100_0000

  /** Connections are numbered as they are accepted; the number stands for the session object. */
  datatype State = State(
    now: nat,
    gateway: byte,
    accepts: nat,
    connId: map<nat, u32>,
    sessions: map<u32, nat>,
    closed: set<nat>,
    timers: map<nat, nat>)

  datatype Event = Accept | Resume(n: nat, old_: u32) | Close(n: nat) | Fire(n: nat) | Kick(id: u32) | Advance(ns: nat)

  function Empty(gateway: byte): State {
    State(0, gateway, 0, map[], map[], {}, map[])
  }

  /** The id a connection is given: gateway id in the high byte, 24 bits of the accept counter below. */
  function OrigId(s: State, n: nat): u32 {
    s.gateway * LOCAL_IDS + n % LOCAL_IDS
  }

  predicate Open(s: State, n: nat) {
    n < s.accepts && n in s.connId && n !in s.closed
  }

  predicate CanResume(s: State, n: nat, old_: u32) {
    Open(s, n) && old_ != OrigId(s, n) && old_ in s.sessions
  }

  function DoAccept(s: State): State {
    var id := OrigId(s, s.accepts);
    s.(accepts := s.accepts + 1, connId := s.connId[s.accepts := id], sessions := s.sessions[id := s.accepts])
  }

  /** The old entry is dropped, then the entry under the connection's original id; then the session takes
      over the old id. */
  function DoResume(s: State, n: nat, old_: u32): State {
    if !CanResume(s, n, old_) then s
    else s.(sessions := (s.sessions - {old_} - {OrigId(s, n)})[old_ := n], connId := s.connId[n := old_])
  }

  function DoClose(s: State, n: nat): State {
    if !Open(s, n) then s
    else s.(closed := s.closed + {n}, timers := s.timers[n := s.now + GRACE_NS])
  }

  /** After the grace the entry under the original id goes, if it is still this very session. */
  function DoFire(s: State, n: nat): State {
    if n !in s.timers || s.now < s.timers[n] then s
    else
      var s1 := s.(timers := s.timers - {n});
      var id := OrigId(s, n);
      if id in s.sessions && s.sessions[id] == n then s1.(sessions := s.sessions - {id}) else s1
  }

  function Apply(s: State, e: Event): State {
    match e
    case Accept => DoAccept(s)
    case Resume(n, old_) => DoResume(s, n, old_)
    case Close(n) => DoClose(s, n)
    case Fire(n) => DoFire(s, n)
    case Kick(id) => s.(sessions := s.sessions - {id})
    case Advance(ns) => s.(now := s.now + ns)
  }

  function Run(s: State, es: seq<Event>): State
    decreases |es|
  {
    if es == [] then s else Apply(Run(s, es[..|es| - 1]), es[|es| - 1])
  }

  /** An id names its gateway in the high byte and the connection's number, modulo 2^24, below: other
      gateways never give it out, nor does this one again for 2^24 connections. */
  lemma IdsNameTheGateway(s: State, n: nat)
    ensures OrigId(s, n) / 0x100_0000 == s.gateway && OrigId(s, n) % 0x100_0000 == n % 0x100_0000
    ensures forall t: State, m: nat :: OrigId(t, m) == OrigId(s, n) <==> t.gateway == s.gateway && m % 0x100_0000 == n % 0x100_0000
  {
  }

  // ----- Every entry names its session -----

  ghost predicate Numbered(s: State) {
    && (forall n: nat :: n in s.connId <==> n < s.accepts)
    && (forall n :: n in s.closed ==> n < s.accepts)
    && (forall n :: n in s.timers ==> n in s.closed)
    && (forall k :: k in s.sessions ==> s.sessions[k] in s.connId)
  }

  /** A table entry under k holds a session whose current id is k. */
  ghost predicate Named(s: State) {
    forall k :: k in s.sessions ==> s.sessions[k] in s.connId && s.connId[s.sessions[k]] == k
  }

  /** The resuming session is in the table under some third id, which this resume would leave behind. */
  predicate LeavesBehind(s: State, n: nat, old_: u32) {
    && CanResume(s, n, old_)
    && s.connId[n] != OrigId(s, n) && s.connId[n] != old_
    && s.connId[n] in s.sessions && s.sessions[s.connId[n]] == n
  }

  lemma NamedOnce(s: State, j: u32, k: u32)
    requires Named(s) && j in s.sessions && k in s.sessions && s.sessions[j] == s.sessions[k]
    ensures j == k
  {}

  /** A resume keeps every entry truthful exactly when it leaves no earlier entry of its session behind. */
  lemma ResumeExact(s: State, n: nat, old_: u32)
    requires Numbered(s) && Named(s)
    ensures Named(DoResume(s, n, old_)) <==> !LeavesBehind(s, n, old_)
  {
    var t := DoResume(s, n, old_);
    if LeavesBehind(s, n, old_) {
      var k := s.connId[n];
      assert k in t.sessions && t.sessions[k] == n && t.connId[n] != k;
    }
  }

  /** The first resume of a connection never leaves an entry behind. */
  lemma FirstResumeIsTame(s: State, n: nat, old_: u32)
    requires n in s.connId && s.connId[n] == OrigId(s, n)
    ensures !LeavesBehind(s, n, old_)
  {}

  lemma AfterAnother(s: State, es: seq<Event>, e: Event)
    ensures Run(s, es + [e]) == Apply(Run(s, es), e)
  {
    assert (es + [e])[..|es + [e]| - 1] == es;
  }

  const THREE := [Accept, Accept, Accept]

  lemma ThreeAccepts()
    ensures Run(Empty(0), [Accept, Accept])
            == State(0, 0, 2, map[0 := 0, 1 := 1], map[0 := 0, 1 := 1], {}, map[])
    ensures Run(Empty(0), THREE)
            == State(0, 0, 3, map[0 := 0, 1 := 1, 2 := 2], map[0 := 0, 1 := 1, 2 := 2], {}, map[])
  {
    AfterAnother(Empty(0), [], Accept);
    AfterAnother(Empty(0), [Accept], Accept);
    AfterAnother(Empty(0), [Accept, Accept], Accept);
    assert [] + [Accept] == [Accept] && [Accept] + [Accept] == [Accept, Accept];
    assert [Accept, Accept] + [Accept] == THREE;
  }

  lemma FirstResume()
    ensures Run(Empty(0), THREE + [Resume(0, 1)]) == State(0, 0, 3, map[0 := 1, 1 := 1, 2 := 2], map[1 := 0, 2 := 2], {}, map[])
  {
    ThreeAccepts();
    AfterAnother(Empty(0), THREE, Resume(0, 1));
  }

  /** A second resume of one connection can list its session under two ids. */
  lemma SecondResumeCanSplit()
    ensures var s := Run(Empty(0), THREE + [Resume(0, 1)] + [Resume(0, 2)]);
            s.sessions == map[1 := 0, 2 := 0] && !Named(s)
  {
    FirstResume();
    AfterAnother(Empty(0), THREE + [Resume(0, 1)], Resume(0, 2));
    var s := Run(Empty(0), THREE + [Resume(0, 1)] + [Resume(0, 2)]);
    assert s == State(0, 0, 3, map[0 := 2, 1 := 1, 2 := 2], map[1 := 0, 2 := 0], {}, map[]);
    assert 1 in s.sessions && s.sessions[1] == 0 && s.connId[0] != 1;
  }

  predicate Tame(s: State, e: Event) {
    e.Resume? ==> !LeavesBehind(s, e.n, e.old_)
  }

  predicate AllTame(s: State, es: seq<Event>)
    decreases |es|
  {
    es == [] || (AllTame(s, es[..|es| - 1]) && Tame(Run(s, es[..|es| - 1]), es[|es| - 1]))
  }

  /** The connections that have resumed an id in the run. */
  function Resumed(s: State, es: seq<Event>): set<nat>
    decreases |es|
  {
    if es == [] then {}
    else
      var pre, e := es[..|es| - 1], es[|es| - 1];
      Resumed(s, pre) + if e.Resume? && CanResume(Run(s, pre), e.n, e.old_) then {e.n} else {}
  }

  /** No connection resumes successfully more than once. */
  predicate ResumesOnce(s: State, es: seq<Event>)
    decreases |es|
  {
    es == [] ||
      var pre, e := es[..|es| - 1], es[|es| - 1];
      ResumesOnce(s, pre) && (e.Resume? && CanResume(Run(s, pre), e.n, e.old_) ==> e.n !in Resumed(s, pre))
  }

  ghost predicate OthersKeepTheirIds(s: State, resumed: set<nat>) {
    forall n :: n in s.connId && n !in resumed ==> s.connId[n] == OrigId(s, n)
  }

  lemma IdsStep(s: State, e: Event, resumed: set<nat>)
    requires OthersKeepTheirIds(s, resumed)
    ensures OthersKeepTheirIds(Apply(s, e), resumed + if e.Resume? && CanResume(s, e.n, e.old_) then {e.n} else {})
  {}

  /** Runs in which every connection resumes at most once are tame throughout. */
  lemma {:induction false} ResumingOnceIsTame(gateway: byte, es: seq<Event>)
    requires ResumesOnce(Empty(gateway), es)
    ensures AllTame(Empty(gateway), es) && OthersKeepTheirIds(Run(Empty(gateway), es), Resumed(Empty(gateway), es))
    decreases |es|
  {
    if es != [] {
      var pre, e := es[..|es| - 1], es[|es| - 1];
      ResumingOnceIsTame(gateway, pre);
      var s := Run(Empty(gateway), pre);
      if e.Resume? && CanResume(s, e.n, e.old_) {
        FirstResumeIsTame(s, e.n, e.old_);
      }
      IdsStep(s, e, Resumed(Empty(gateway), pre));
    }
  }

  /** A closed connection whose timer has fired is no longer under its original id. */
  ghost predicate Cleaned(s: State) {
    forall n :: n in s.closed && n !in s.timers && OrigId(s, n) in s.sessions ==> s.sessions[OrigId(s, n)] != n
  }

  ghost predicate Sound(s: State) {
    Numbered(s) && Named(s) && Cleaned(s)
  }

  lemma StepSound(s: State, e: Event)
    requires Sound(s) && Tame(s, e)
    ensures Sound(Apply(s, e))
  {
    match e
    case Resume(n, old_) => ResumeExact(s, n, old_);
    case _ =>
  }

  /** In every run of accepts, tame resumes, closes, timers and kicks, every entry k holds a session whose
      current id is k, so no session is listed under two ids. */
  lemma {:induction false} EntriesNameTheirSessions(gateway: byte, es: seq<Event>)
    requires AllTame(Empty(gateway), es)
    ensures Sound(Run(Empty(gateway), es))
    ensures Run(Empty(gateway), es).gateway == gateway
    decreases |es|
  {
    if es != [] {
      EntriesNameTheirSessions(gateway, es[..|es| - 1]);
      StepSound(Run(Empty(gateway), es[..|es| - 1]), es[|es| - 1]);
    }
  }

  // ----- What timers remove, and what stays -----

  /** A timer removes at most its own session's entry, and only if that session never resumed another id. */
  lemma TimerSparesTakeovers(s: State, n: nat, k: u32)
    requires Sound(s) && k in s.sessions && k !in DoFire(s, n).sessions
    ensures s.sessions[k] == n && k == OrigId(s, n) && s.connId[n] == k
  {}

  /** Once every connection is closed and every timer has fired, each remaining entry belongs to a
      connection that resumed. */
  lemma OnlyResumedRemain(gateway: byte, es: seq<Event>, k: u32)
    requires AllTame(Empty(gateway), es)
    requires var s := Run(Empty(gateway), es);
             (forall n: nat :: n < s.accepts ==> n in s.closed) && s.timers == map[] && k in s.sessions
    ensures var s := Run(Empty(gateway), es); var n := s.sessions[k];
            n in s.connId && s.connId[n] == k && k != OrigId(s, n)
  {
    EntriesNameTheirSessions(gateway, es);
    var s := Run(Empty(gateway), es);
    assert s.sessions[k] in s.closed;
  }

  /** And such an entry is never cleaned up: no close and no timer removes it. */
  lemma ResumedIsNeverCleaned(s: State, e: Event, k: u32)
    requires Sound(s) && k in s.sessions && k != OrigId(s, s.sessions[k])
    requires e.Close? || e.Fire? || e.Advance?
    ensures k in Apply(s, e).sessions && Apply(s, e).sessions[k] == s.sessions[k]
  {}

  const TAKEOVER := [Accept, Accept] + [Resume(1, 0)]
  const GOODBYES := TAKEOVER + [Close(0)] + [Close(1)]
  const LEFTOVER := GOODBYES + [Advance(GRACE_NS)] + [Fire(0)] + [Fire(1)]

  lemma Goodbyes()
    ensures Run(Empty(0), GOODBYES)
            == State(0, 0, 2, map[0 := 0, 1 := 0], map[0 := 1], {0, 1}, map[0 := GRACE_NS, 1 := GRACE_NS])
  {
    ThreeAccepts();
    AfterAnother(Empty(0), [Accept, Accept], Resume(1, 0));
    assert Run(Empty(0), TAKEOVER) == State(0, 0, 2, map[0 := 0, 1 := 0], map[0 := 1], {}, map[]);
    AfterAnother(Empty(0), TAKEOVER, Close(0));
    assert Run(Empty(0), TAKEOVER + [Close(0)])
           == State(0, 0, 2, map[0 := 0, 1 := 0], map[0 := 1], {0}, map[0 := GRACE_NS]);
    AfterAnother(Empty(0), TAKEOVER + [Close(0)], Close(1));
  }

  /** Two connections, the second resuming the first one's id; both close and both timers fire, and the
      entry is still there. */
  lemma ResumedEntryStays()
    ensures var s := Run(Empty(0), LEFTOVER);
            s.sessions == map[0 := 1] && s.accepts == 2 && s.closed == {0, 1} && s.timers == map[]
  {
    Goodbyes();
    var ids, table, gone := map[0 := 0, 1 := 0], map[0 := 1], {0, 1};
    AfterAnother(Empty(0), GOODBYES, Advance(GRACE_NS));
    AfterAnother(Empty(0), GOODBYES + [Advance(GRACE_NS)], Fire(0));
    assert Run(Empty(0), GOODBYES + [Advance(GRACE_NS)] + [Fire(0)])
           == State(GRACE_NS, 0, 2, ids, table, gone, map[1 := GRACE_NS]);
    AfterAnother(Empty(0), GOODBYES + [Advance(GRACE_NS)] + [Fire(0)], Fire(1));
  }

  // ----- Eight seconds to come back -----

  /** The step is about id k itself: a kick, a takeover, or a new connection given the same id. */
  predicate Touches(s: State, e: Event, k: u32) {
    match e
    case Accept => OrigId(s, s.accepts) == k
    case Resume(n, old_) => old_ == k || OrigId(s, n) == k
    case Kick(id) => id == k
    case _ => false
  }

  predicate NoneTouches(s: State, es: seq<Event>, k: u32)
    decreases |es|
  {
    es == [] || (NoneTouches(s, es[..|es| - 1], k) && !Touches(Run(s, es[..|es| - 1]), es[|es| - 1], k))
  }

  ghost predicate Kept(s: State, n: nat, k: u32, until: nat) {
    && k in s.sessions && s.sessions[k] == n && OrigId(s, n) == k
    && n in s.closed && n in s.timers && s.timers[n] == until
  }

  lemma KeptStep(s: State, e: Event, n: nat, k: u32, until: nat)
    requires Kept(s, n, k, until) && !Touches(s, e, k) && Apply(s, e).now < until
    ensures Kept(Apply(s, e), n, k, until)
  {}

  lemma {:induction false} KeptRun(s: State, es: seq<Event>, n: nat, k: u32, until: nat)
    requires Kept(s, n, k, until) && NoneTouches(s, es, k) && Run(s, es).now < until
    ensures Kept(Run(s, es), n, k, until)
    decreases |es|
  {
    if es != [] {
      var pre := Run(s, es[..|es| - 1]);
      assert pre.now <= Run(s, es).now;
      KeptRun(s, es[..|es| - 1], n, k, until);
      KeptStep(pre, es[|es| - 1], n, k, until);
    }
  }

  /** A connection that closes under its own id stays resumable for eight seconds: until then, unless
      somebody else acts on that id, another open connection can take the id over. */
  lemma ResumableForEightSeconds(s: State, n: nat, es: seq<Event>, m: nat)
    requires Open(s, n) && OrigId(s, n) in s.sessions && s.sessions[OrigId(s, n)] == n
    requires NoneTouches(Apply(s, Close(n)), es, OrigId(s, n))
    requires var t := Run(Apply(s, Close(n)), es); t.now < s.now + 8_000_000_000 && Open(t, m) && OrigId(t, m) != OrigId(s, n)
    ensures var t := Run(Apply(s, Close(n)), es); var k := OrigId(s, n); var u := Apply(t, Resume(m, k));
            k in u.sessions && u.sessions[k] == m && u.connId[m] == k
  {
    KeptRun(Apply(s, Close(n)), es, n, OrigId(s, n), s.now + GRACE_NS);
  }
}

/** The connection table as the program updates it: sessions are objects, compared by identity. */
module ConnTable {
  import opened Common
  import opened ConnTableModel

  class Session {
    const number: nat
    var connId: u32

    constructor (number: nat, connId: u32)
      ensures this.number == number && this.connId == connId
    {
      this.number, this.connId := number, connId;
    }

    method Rebind(id: u32)
      modifies this
      ensures connId == id
    {
      connId := id;
    }
  }

  class Ctx {
    const gatewayId: byte
    var nextConnId: nat
    var sessions: map<u32, Session>
    /** Every session ever accepted, and what the runtime knows: the clock, who has closed, who sleeps. */
    ghost var accepted: seq<Session>
    var now: nat
    var closed: set<nat>
    var timers: map<nat, nat>

    ghost predicate Valid()
      reads this, accepted
    {
      && |accepted| == nextConnId
      && (forall i :: 0 <= i < |accepted| ==> accepted[i].number == i)
      && (forall k :: k in sessions ==> sessions[k] in accepted)
    }

    ghost function Model(): State
      reads this, accepted
    {
      State(now, gatewayId, nextConnId, Ids(accepted), Numbers(sessions), closed, timers)
    }

    ghost function Ids(all: seq<Session>): map<nat, u32>
      reads all
    {
      map n: nat | n < |all| :: all[n].connId
    }

    ghost function Numbers(table: map<u32, Session>): map<u32, nat> {
      map k | k in table :: table[k].number
    }

    constructor (gatewayId: byte)
      ensures Valid() && Model() == Empty(gatewayId)
    {
      this.gatewayId := gatewayId;
      nextConnId, sessions, accepted, now, closed, timers := 0, map[], [], 0, {}, map[];
    }

    function OriginalId(n: nat): u32
      reads this
    {
      gatewayId * LOCAL_IDS + n % LOCAL_IDS
    }

    method AcceptConnection() returns (s: Session)
      requires Valid()
      modifies this
      ensures Valid() && fresh(s) && accepted == old(accepted) + [s]
      ensures Model() == Apply(old(Model()), Accept)
      ensures s.number == old(nextConnId) && nextConnId == old(nextConnId) + 1
      ensures s.connId == gatewayId * 0x100_0000 + old(nextConnId) % 0x100_0000
      ensures sessions == old(sessions)[s.connId := s] && closed == old(closed) && timers == old(timers)
    {
      var id := OriginalId(nextConnId);
      s := new Session(nextConnId, id);
      File(s, id);
    }

    method File(s: Session, id: u32)
      requires Valid() && s !in accepted && s.number == nextConnId && s.connId == id == OrigId(Model(), nextConnId)
      modifies this
      ensures Valid() && accepted == old(accepted) + [s]
      ensures Model() == Apply(old(Model()), Accept)
      ensures nextConnId == old(nextConnId) + 1 && sessions == old(sessions)[id := s]
      ensures closed == old(closed) && timers == old(timers)
    {
      IdsGrow(accepted, s);
      NumbersPut(sessions, id, s);
      sessions := sessions[id := s];
      accepted := accepted + [s];
      nextConnId := nextConnId + 1;
    }

    lemma IdsGrow(all: seq<Session>, s: Session)
      ensures Ids(all + [s]) == Ids(all)[|all| := s.connId]
    {}

    lemma NumbersPut(table: map<u32, Session>, id: u32, s: Session)
      ensures Numbers(table[id := s]) == Numbers(table)[id := s.number]
    {}

    lemma NumbersWithout(table: map<u32, Session>, id: u32)
      ensures Numbers(table - {id}) == Numbers(table) - {id}
    {}

    /** Drop the old entry and the session's own, then put the session under the old id. */
    method TakeOver(s: Session, old_: u32, mine: u32)
      requires Valid() && s in accepted
      modifies this`sessions, s
      ensures Valid() && s.connId == old_
      ensures Numbers(sessions) == (Numbers(old(sessions)) - {old_} - {mine})[old_ := s.number]
      ensures sessions == (old(sessions) - {old_} - {mine})[old_ := s]
      ensures forall r: Session :: r in accepted && r != s ==> r.connId == old(r.connId)
    {
      NumbersWithout(sessions, old_);
      sessions := sessions - {old_};
      NumbersWithout(sessions, mine);
      sessions := sessions - {mine};
      s.Rebind(old_);
      NumbersPut(sessions, old_, s);
      sessions := sessions[old_ := s];
    }

    /** Resume the id if it is in the table and not the connection's own. */
    method Resume(s: Session, old_: u32) returns (ok: bool)
      requires Valid() && s in accepted && s.number !in closed
      modifies this`sessions, s
      ensures Valid() && Model() == Apply(old(Model()), Event.Resume(s.number, old_))
      ensures ok <==> CanResume(old(Model()), s.number, old_)
      ensures var mine := gatewayId * 0x100_0000 + s.number % 0x100_0000;
              && (ok <==> old_ != mine && old_ in old(sessions))
              && (ok ==> s.connId == old_ && sessions == (old(sessions) - {mine})[old_ := s])
              && (!ok ==> sessions == old(sessions) && s.connId == old(s.connId))
    {
      var mine := OriginalId(s.number);
      if old_ == mine || old_ !in sessions {
        return false;
      }
      ghost var before := Model();
      assert s.number in before.connId;
      TakeOver(s, old_, mine);
      assert Model().connId == before.connId[s.number := old_];
      return true;
    }

    /** A resume frame read on the open connection `s`. */
    method HandleResume(s: Session, payload: seq<byte>) returns (ok: bool)
      requires Valid() && s in accepted && s.number !in closed
      modifies this`sessions, s
      ensures Valid()
      ensures |payload| != 4 ==> !ok && Model() == old(Model())
      ensures |payload| == 4 ==> Model() == Apply(old(Model()), Event.Resume(s.number, BigEndianAt(payload, 0)))
      ensures var mine := gatewayId * 0x100_0000 + s.number % 0x100_0000;
              && (ok <==> |payload| == 4 && BigEndianAt(payload, 0) != mine && BigEndianAt(payload, 0) in old(sessions))
              && (ok ==> s.connId == BigEndianAt(payload, 0)
                         && sessions == (old(sessions) - {mine})[BigEndianAt(payload, 0) := s])
              && (!ok ==> sessions == old(sessions) && s.connId == old(s.connId))
    {
      if |payload| != 4 {
        return false;
      }
      ReadsBigEndian(payload);
      ok := Resume(s, FromBe32(payload));
    }

    method ConnectionEnds(s: Session)
      requires Valid() && s in accepted && s.number !in closed
      modifies this`closed, this`timers
      ensures Valid() && Model() == Apply(old(Model()), Close(s.number))
      ensures closed == old(closed) + {s.number} && timers == old(timers)[s.number := now + 8_000_000_000]
    {
      closed := closed + {s.number};
      timers := timers[s.number := now + GRACE_NS];
    }

    /** The grace task of a closed connection wakes: it compares objects, not ids. */
    method GraceEnds(s: Session)
      requires Valid() && s in accepted
      modifies this`sessions, this`timers
      ensures Valid() && Model() == Apply(old(Model()), Fire(s.number))
      ensures var due := s.number in old(timers) && now >= old(timers)[s.number];
              var id := gatewayId * 0x100_0000 + s.number % 0x100_0000;
              && timers == old(timers) - (if due then {s.number} else {})
              && sessions == old(sessions) - (if due && id in old(sessions) && old(sessions)[id] == s then {id} else {})
    {
      if s.number !in timers || now < timers[s.number] {
        return;
      }
      timers := timers - {s.number};
      var id := OriginalId(s.number);
      var isCurrent := id in sessions && sessions[id] == s;
      assert id in sessions && sessions[id].number == s.number ==> sessions[id] == s;
      if isCurrent {
        NumbersWithout(sessions, id);
        sessions := sessions - {id};
      }
    }

    method KickConnection(id: u32) returns (ok: bool)
      requires Valid()
      modifies this`sessions
      ensures Valid() && Model() == Apply(old(Model()), Kick(id))
      ensures ok <==> id in old(sessions)
      ensures sessions == old(sessions) - {id}
    {
      ok := id in sessions;
      sessions := sessions - {id};
    }
  }
}
