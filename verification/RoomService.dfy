/** Rooms, players and the disconnect grace protocol (crates/grimoire-room-svc/src/main.rs).
    Every service call and every timer firing is one atomic step. Names are not modelled. */
module RoomModel {
  import opened Common

  const GRACE_NS := 15_000_000_000

  datatype Player = Player(conn: u32, id: u32, room: u32, online: bool)
  datatype Room = Room(id: u32, capacity: nat, members: seq<Player>)

  /** A sleeping clean-up task: it wakes no earlier than `due`. */
  datatype Timer = Timer(conn: u32, gen: nat, due: nat)

  /** The id counters count calls; the 32-bit ids handed out are their low bits. */
  datatype State = State(
    now: nat,
    players: map<u32, Player>,
    rooms: map<u32, Room>,
    nextPlayer: nat,
    nextRoom: nat,
    pending: map<u32, nat>,
    timers: multiset<Timer>)

  datatype Event =
    | Login(conn: u32)
    | Connected(conn: u32)
    | Disconnected(conn: u32)
    | Create(conn: u32, capacity: u32)
    | JoinRoom(conn: u32, room: u32)
    | LeaveRoom(conn: u32)
    | Fire(timer: Timer)
    | Advance(ns: nat)

  const EMPTY := State(0, map[], map[], 1, 1, map[], multiset{})

  // ----- What each operation does -----

  /** The first member record of the connection gets the new flag. */
  function MarkFirst(ms: seq<Player>, conn: u32, online: bool): seq<Player> {
    if ms == [] then []
    else if ms[0].conn == conn then [ms[0].(online := online)] + ms[1..]
    else [ms[0]] + MarkFirst(ms[1..], conn, online)
  }

  function Remove(ms: seq<Player>, id: u32): seq<Player> {
    if ms == [] then []
    else if ms[0].id == id then Remove(ms[1..], id)
    else [ms[0]] + Remove(ms[1..], id)
  }

  function SetOnline(s: State, conn: u32, online: bool): State {
    if conn !in s.players then s
    else
      var p := s.players[conn].(online := online);
      var s1 := s.(players := s.players[conn := p]);
      if p.room !in s.rooms then s1
      else
        var r := s.rooms[p.room];
        s1.(rooms := s.rooms[p.room := r.(members := MarkFirst(r.members, conn, online))])
  }

  function Resume(s: State, conn: u32): State {
    SetOnline(s.(pending := s.pending - {conn}), conn, true)
  }

  function LogIn(s: State, conn: u32): State {
    if conn in s.players then Resume(s, conn)
    else s.(players := s.players[conn := Player(conn, s.nextPlayer % TWO_32, 0, true)], nextPlayer := s.nextPlayer + 1)
  }

  function Generation(s: State, conn: u32): nat {
    (if conn in s.pending then s.pending[conn] else 0) + 1
  }

  function Disconnect(s: State, conn: u32): State {
    if conn !in s.players then s
    else
      var gen := Generation(s, conn);
      SetOnline(s, conn, false).(pending := s.pending[conn := gen],
                                 timers := s.timers + multiset{Timer(conn, gen, s.now + GRACE_NS)})
  }

  /** Take the player out of a room, deleting the room when nobody is left. */
  function Depart(rooms: map<u32, Room>, room: u32, id: u32): map<u32, Room> {
    if room !in rooms then rooms
    else
      var ms := Remove(rooms[room].members, id);
      if ms == [] then rooms - {room} else rooms[room := rooms[room].(members := ms)]
  }

  function Expire(s: State, conn: u32, gen: nat): State {
    if conn !in s.pending || s.pending[conn] != gen then s
    else
      var s1 := s.(pending := s.pending - {conn});
      if conn !in s.players then s1
      else
        var p := s.players[conn];
        s1.(players := s.players - {conn}, rooms := Depart(s.rooms, p.room, p.id))
  }

  function FireTimer(s: State, t: Timer): State {
    if t !in s.timers || s.now < t.due then s
    else Expire(s.(timers := s.timers - multiset{t}), t.conn, t.gen)
  }

  function ClampCapacity(c: u32): nat {
    if c < 2 then 2 else if c > 64 then 64 else c
  }

  predicate CanCreate(s: State, conn: u32) {
    conn in s.players && s.players[conn].room == 0
  }

  function CreateRoom(s: State, conn: u32, capacity: u32): State {
    if !CanCreate(s, conn) then s
    else
      var id: u32 := s.nextRoom % TWO_32;
      s.(rooms := s.rooms[id := Room(id, ClampCapacity(capacity), [s.players[conn]])],
         players := s.players[conn := s.players[conn].(room := id)],
         nextRoom := s.nextRoom + 1)
  }

  /** The join puts a new member record into the room. */
  predicate Enters(s: State, conn: u32, room: u32) {
    && conn in s.players && room in s.rooms && s.players[conn].room != room
    && |s.rooms[room].members| < s.rooms[room].capacity
  }

  function Join(s: State, conn: u32, room: u32): State {
    if !Enters(s, conn, room) then s
    else
      var r := s.rooms[room];
      s.(rooms := s.rooms[room := r.(members := r.members + [s.players[conn]])],
         players := s.players[conn := s.players[conn].(room := room)])
  }

  predicate CanLeave(s: State, conn: u32) {
    conn in s.players && s.players[conn].room in s.rooms
  }

  function Leave(s: State, conn: u32): State {
    if !CanLeave(s, conn) then s
    else
      var p := s.players[conn];
      s.(rooms := Depart(s.rooms, p.room, p.id), players := s.players[conn := p.(room := 0)])
  }

  function Apply(s: State, e: Event): State {
    match e
    case Login(c) => LogIn(s, c)
    case Connected(c) => if c in s.players then Resume(s, c) else s
    case Disconnected(c) => Disconnect(s, c)
    case Create(c, n) => CreateRoom(s, c, n)
    case JoinRoom(c, r) => Join(s, c, r)
    case LeaveRoom(c) => Leave(s, c)
    case Fire(t) => FireTimer(s, t)
    case Advance(ns) => s.(now := s.now + ns)
  }

  function Run(s: State, es: seq<Event>): State
    decreases |es|
  {
    if es == [] then s else Apply(Run(s, es[..|es| - 1]), es[|es| - 1])
  }

  // ----- Members, one by one -----

  /** Only the connection's first record changes, and of it only the flag. */
  predicate FlagSet(before: seq<Player>, after: seq<Player>, conn: u32, online: bool) {
    && |after| == |before|
    && forall k :: 0 <= k < |before| ==>
         after[k] == if before[k].conn == conn && IsFirst(before, k) then before[k].(online := online) else before[k]
  }

  predicate IsFirst(ms: seq<Player>, k: nat)
    requires k < |ms|
  {
    forall j :: 0 <= j < k ==> ms[j].conn != ms[k].conn
  }

  lemma {:induction false} MarkSetsTheFlag(ms: seq<Player>, conn: u32, online: bool)
    ensures FlagSet(ms, MarkFirst(ms, conn, online), conn, online)
    decreases |ms|
  {
    if ms != [] {
      var rest, after := ms[1..], MarkFirst(ms, conn, online);
      MarkSetsTheFlag(rest, conn, online);
      forall k | 0 <= k < |ms|
        ensures after[k] == if ms[k].conn == conn && IsFirst(ms, k) then ms[k].(online := online) else ms[k]
      {
        if k > 0 {
          assert rest[k - 1] == ms[k];
          if ms[0].conn != conn {
            assert after[k] == MarkFirst(rest, conn, online)[k - 1];
            assert forall j :: 0 <= j < k - 1 ==> rest[j] == ms[j + 1];
            if ms[k].conn == conn { FirstInTail(ms, k); }
          }
        }
      }
    }
  }

  lemma FirstInTail(ms: seq<Player>, k: nat)
    requires 0 < k < |ms| && ms[0].conn != ms[k].conn
    ensures IsFirst(ms, k) <==> IsFirst(ms[1..], k - 1)
  {
    if IsFirst(ms[1..], k - 1) {
      forall j | 0 <= j < k ensures ms[j].conn != ms[k].conn {
        if j > 0 { assert ms[1..][j - 1] == ms[j]; }
      }
    }
  }

  /** Removing works record by record: those with the id go, the others stay in their order. */
  lemma {:induction false} RemoveWorksPiecewise(a: seq<Player>, b: seq<Player>, id: u32)
    ensures Remove(a + b, id) == Remove(a, id) + Remove(b, id)
    ensures forall m: Player :: Remove([m], id) == if m.id == id then [] else [m]
    decreases |a|
  {
    forall m: Player ensures Remove([m], id) == if m.id == id then [] else [m] {
      RemoveHead([m], id);
      assert [m][1..] == [];
    }
    if a == [] {
      assert a + b == b;
    } else {
      assert (a + b)[1..] == a[1..] + b;
      RemoveWorksPiecewise(a[1..], b, id);
      RemoveHead(a, id);
      RemoveHead(a + b, id);
    }
  }

  lemma RemoveHead(ms: seq<Player>, id: u32)
    requires ms != []
    ensures Remove(ms, id) == (if ms[0].id == id then [] else [ms[0]]) + Remove(ms[1..], id)
  {
  }

  // ----- The grace protocol -----

  ghost predicate HasTimer(s: State, conn: u32, gen: nat) {
    exists due: nat :: Timer(conn, gen, due) in s.timers
  }

  /** A connection awaits removal exactly while its player exists and is offline, and then a timer of
      the same generation is outstanding. */
  ghost predicate Grace(s: State) {
    && (forall c :: c in s.pending <==> c in s.players && !s.players[c].online)
    && (forall c :: c in s.pending ==> HasTimer(s, c, s.pending[c]))
    && (forall t :: t in s.timers ==> t.gen >= 1 && t.due <= s.now + GRACE_NS)
  }

  lemma ResumeKeepsGrace(s: State, c: u32)
    requires Grace(s)
    ensures Grace(Resume(s, c))
  {
    var r := Resume(s, c);
    assert r.timers == s.timers;
    forall d | d in r.pending ensures HasTimer(r, d, r.pending[d]) {
      assert HasTimer(s, d, s.pending[d]);
    }
  }

  lemma DisconnectKeepsGrace(s: State, c: u32)
    requires Grace(s)
    ensures Grace(Disconnect(s, c))
  {
    if c in s.players {
      var r := Disconnect(s, c);
      assert Timer(c, r.pending[c], s.now + GRACE_NS) in r.timers;
      forall d | d in r.pending ensures HasTimer(r, d, r.pending[d]) {
        if d != c {
          var due: nat :| Timer(d, s.pending[d], due) in s.timers;
          assert Timer(d, s.pending[d], due) in r.timers;
        }
      }
    }
  }

  lemma FireKeepsGrace(s: State, t: Timer)
    requires Grace(s)
    ensures Grace(FireTimer(s, t))
  {
    if t in s.timers && s.now >= t.due {
      var r := FireTimer(s, t);
      forall d | d in r.pending ensures HasTimer(r, d, r.pending[d]) {
        var due: nat :| Timer(d, s.pending[d], due) in s.timers;
        assert Timer(d, s.pending[d], due) != t;
        assert Timer(d, s.pending[d], due) in r.timers;
      }
    }
  }

  lemma RoomStepsKeepGrace(s: State, r: State)
    requires Grace(s) && s.now <= r.now && r.timers == s.timers && r.pending == s.pending
    requires forall c :: c in s.pending ==> c in r.players && !r.players[c].online
    requires forall c :: c in r.players && !r.players[c].online ==> c in s.pending
    ensures Grace(r)
  {
    forall d | d in r.pending ensures HasTimer(r, d, r.pending[d]) {
      assert HasTimer(s, d, s.pending[d]);
    }
  }

  lemma LogInKeepsGrace(s: State, c: u32)
    requires Grace(s)
    ensures Grace(LogIn(s, c))
  {
    if c in s.players { ResumeKeepsGrace(s, c); } else { RoomStepsKeepGrace(s, LogIn(s, c)); }
  }

  lemma StepKeepsGrace(s: State, e: Event)
    requires Grace(s)
    ensures Grace(Apply(s, e))
  {
    match e
    case Login(c) => LogInKeepsGrace(s, c);
    case Connected(c) => ResumeKeepsGrace(s, c);
    case Disconnected(c) => DisconnectKeepsGrace(s, c);
    case Fire(t) => FireKeepsGrace(s, t);
    case _ => RoomStepsKeepGrace(s, Apply(s, e));
  }

  /** The grace protocol holds in every reachable state. */
  lemma {:induction false} GraceInEveryRun(es: seq<Event>)
    ensures Grace(Run(EMPTY, es))
    decreases |es|
  {
    if es != [] {
      GraceInEveryRun(es[..|es| - 1]);
      StepKeepsGrace(Run(EMPTY, es[..|es| - 1]), es[|es| - 1]);
    }
  }

  /** In every run, a step removes no player that is online, and only a due timer of the connection's
      current generation removes a player at all. */
  lemma OnlyExpiryRemoves(es: seq<Event>, e: Event, c: u32)
    requires var s := Run(EMPTY, es); c in s.players && c !in Apply(s, e).players
    ensures var s := Run(EMPTY, es);
            && !s.players[c].online
            && e.Fire? && e.timer in s.timers && e.timer.due <= s.now
            && e.timer.conn == c && c in s.pending && e.timer.gen == s.pending[c]
  {
    GraceInEveryRun(es);
  }

  lemma OfflineHasTimer(s: State, c: u32)
    requires Grace(s) && c in s.players && !s.players[c].online
    ensures s.timers != multiset{}
  {
    assert HasTimer(s, c, s.pending[c]);
  }

  /** Once all timers have fired no offline player remains. */
  lemma NoTimersNoOffline(es: seq<Event>)
    requires Run(EMPTY, es).timers == multiset{}
    ensures forall c :: c in Run(EMPTY, es).players ==> Run(EMPTY, es).players[c].online
  {
    GraceInEveryRun(es);
    var s := Run(EMPTY, es);
    forall c | c in s.players ensures s.players[c].online {
      if !s.players[c].online { OfflineHasTimer(s, c); }
    }
  }

  // ----- Full grace in timed runs -----

  /** A clean-up task of the connection is still asleep and will wake before a full grace has passed. */
  ghost predicate EarlyTimer(s: State, c: u32) {
    exists t :: t in s.timers && t.conn == c && t.due < s.now + 15_000_000_000
  }

  ghost predicate SafeUntil(s: State, c: u32, until: nat) {
    && c in s.players
    && (forall t :: t in s.timers && t.conn == c ==> t.due >= until)
    && until <= s.now + GRACE_NS
  }

  lemma SafeStep(s: State, e: Event, c: u32, until: nat)
    requires SafeUntil(s, c, until) && Apply(s, e).now < until
    ensures SafeUntil(Apply(s, e), c, until)
  {
    match e
    case Disconnected(d) => NewTimersAreLate(s, d, c, until);
    case Fire(t) => LateTimersSpare(s, t, c, until);
    case _ => assert Apply(s, e).timers == s.timers;
  }

  lemma NewTimersAreLate(s: State, d: u32, c: u32, until: nat)
    requires SafeUntil(s, c, until)
    ensures SafeUntil(Disconnect(s, d), c, until)
  {
    if d in s.players {
      assert Disconnect(s, d).timers == s.timers + multiset{Timer(d, Generation(s, d), s.now + GRACE_NS)};
    }
  }

  lemma LateTimersSpare(s: State, t: Timer, c: u32, until: nat)
    requires SafeUntil(s, c, until) && s.now < until
    ensures SafeUntil(FireTimer(s, t), c, until)
  {
    if t in s.timers && s.now >= t.due {
      assert t.conn != c;
      assert FireTimer(s, t).timers == s.timers - multiset{t};
    }
  }

  lemma TimeGoesOn(s: State, e: Event)
    ensures s.now <= Apply(s, e).now
  {}

  lemma {:induction false} SafeRun(s: State, es: seq<Event>, c: u32, until: nat)
    requires SafeUntil(s, c, until) && Run(s, es).now < until
    ensures SafeUntil(Run(s, es), c, until)
    decreases |es|
  {
    if es != [] {
      var pre := Run(s, es[..|es| - 1]);
      TimeGoesOn(pre, es[|es| - 1]);
      SafeRun(s, es[..|es| - 1], c, until);
      SafeStep(pre, es[|es| - 1], c, until);
    }
  }

  lemma {:induction false} RunJoins(s: State, a: seq<Event>, b: seq<Event>)
    ensures Run(s, a + b) == Run(Run(s, a), b)
    decreases |b|
  {
    if b == [] {
      assert a + b == a;
    } else {
      var n := |b| - 1;
      assert (a + b)[..|a + b| - 1] == a + b[..n];
      RunJoins(s, a, b[..n]);
    }
  }

  function Repeat(e: Event, n: nat): seq<Event> {
    if n == 0 then [] else Repeat(e, n - 1) + [e]
  }

  /** r is s after the connection dropped n times in a row. */
  ghost predicate Dropped(s: State, r: State, c: u32, n: nat) {
    && c in r.players && r.now == s.now && s.timers <= r.timers
    && (if n == 0 then c !in r.pending else c in r.pending && r.pending[c] == n)
  }

  lemma DropAgain(s: State, r: State, c: u32, n: nat)
    requires Dropped(s, r, c, n)
    ensures Dropped(s, Disconnect(r, c), c, n + 1)
  {}

  lemma {:induction false} Disconnects(s: State, c: u32, n: nat)
    requires c in s.players && c !in s.pending
    ensures Dropped(s, Run(s, Repeat(Disconnected(c), n)), c, n)
    decreases n
  {
    if n > 0 {
      Disconnects(s, c, n - 1);
      var es := Repeat(Disconnected(c), n);
      assert es[..|es| - 1] == Repeat(Disconnected(c), n - 1);
      DropAgain(s, Run(s, es[..|es| - 1]), c, n - 1);
    }
  }

  lemma WaitAndFire(s: State, c: u32, t: Timer) returns (es: seq<Event>)
    requires c in s.players && t in s.timers && t.conn == c && c in s.pending && s.pending[c] == t.gen
    ensures Run(s, es).now == (if t.due > s.now then t.due else s.now)
    ensures c !in Run(s, es).players
  {
    var wait := Advance(if t.due > s.now then t.due - s.now else 0);
    es := [wait, Fire(t)];
    assert es[..1] == [wait] && [wait][..0] == [];
    assert Run(s, []) == s;
    assert Run(s, [wait]) == Apply(s, wait);
    assert Run(s, es) == Apply(Apply(s, wait), Fire(t));
  }

  /** An early timer can always be made to evict: resume, drop as often as its generation says, wait. */
  lemma EarlyTimerEvicts(s: State, c: u32, t: Timer) returns (es: seq<Event>)
    requires c in s.players && t in s.timers && t.conn == c && t.gen >= 1
    ensures Run(s, es).now == (if t.due > s.now then t.due else s.now)
    ensures c !in Run(s, es).players
  {
    var resume, drops := [Connected(c)], Repeat(Disconnected(c), t.gen);
    var s1 := Apply(s, Connected(c));
    assert resume[..0] == [];
    assert Run(s, resume) == s1;
    Disconnects(s1, c, t.gen);
    var last := WaitAndFire(Run(s1, drops), c, t);
    es := resume + (drops + last);
    RunJoins(s, resume, drops + last);
    RunJoins(s1, drops, last);
  }

  /** A disconnecting player is guaranteed its full 15 seconds, whatever resumes and further
      disconnects follow, exactly when no clean-up task that wakes earlier is still asleep. */
  lemma FullGraceExact(past: seq<Event>, c: u32)
    requires c in Run(EMPTY, past).players
    ensures var s := Run(EMPTY, past); var s1 := Apply(s, Disconnected(c));
            (forall es :: Run(s1, es).now < s.now + 15_000_000_000 ==> c in Run(s1, es).players)
            <==> !EarlyTimer(s, c)
  {
    GraceInEveryRun(past);
    var s := Run(EMPTY, past);
    var s1 := Apply(s, Disconnected(c));
    if EarlyTimer(s, c) {
      var t :| t in s.timers && t.conn == c && t.due < s.now + GRACE_NS;
      assert t in s1.timers;
      var es := EarlyTimerEvicts(s1, c, t);
      assert Run(s1, es).now < s.now + GRACE_NS && c !in Run(s1, es).players;
    } else {
      forall es | Run(s1, es).now < s.now + GRACE_NS ensures c in Run(s1, es).players {
        SafeRun(s1, es, c, s.now + GRACE_NS);
      }
    }
  }

  // ----- A run that loses part of the grace -----

  lemma AfterAnother(es: seq<Event>, e: Event)
    ensures Run(EMPTY, es + [e]) == Apply(Run(EMPTY, es), e)
  {
    assert (es + [e])[..|es|] == es;
  }

  const CAME_BACK := [Login(7)] + [Disconnected(7)] + [Connected(7)] + [Advance(1)]

  lemma CameBack()
    ensures Run(EMPTY, CAME_BACK)
            == State(1, map[7 := Player(7, 1, 0, true)], map[], 2, 1, map[], multiset{Timer(7, 1, GRACE_NS)})
  {
    AfterAnother([], Login(7));
    assert [] + [Login(7)] == [Login(7)];
    assert Run(EMPTY, [Login(7)]) == State(0, map[7 := Player(7, 1, 0, true)], map[], 2, 1, map[], multiset{});
    AfterAnother([Login(7)], Disconnected(7));
    assert Run(EMPTY, [Login(7)] + [Disconnected(7)])
           == State(0, map[7 := Player(7, 1, 0, false)], map[], 2, 1, map[7 := 1], multiset{Timer(7, 1, GRACE_NS)});
    AfterAnother([Login(7)] + [Disconnected(7)], Connected(7));
    AfterAnother([Login(7)] + [Disconnected(7)] + [Connected(7)], Advance(1));
  }

  /** A player drops, comes back and drops again a moment later: some continuation evicts it
      before the second grace is over. */
  lemma GraceCanBeCut()
    ensures var s := Run(EMPTY, CAME_BACK); var s1 := Apply(s, Disconnected(7));
            && 7 in s.players && EarlyTimer(s, 7)
            && exists es :: Run(s1, es).now < s.now + GRACE_NS && 7 !in Run(s1, es).players
  {
    CameBack();
    var s := Run(EMPTY, CAME_BACK);
    assert Timer(7, 1, GRACE_NS) in s.timers;
    FullGraceExact(CAME_BACK, 7);
  }
}
