/** Who is in which room, over every run of the room service (crates/grimoire-room-svc/src/main.rs). */
module RoomMembership {
  import opened Common
  import opened RoomModel

  // ----- What removing and marking do to a member list -----

  lemma {:induction false} RemoveKeepsOthers(ms: seq<Player>, id: u32)
    ensures forall m :: m in Remove(ms, id) <==> m in ms && m.id != id
    ensures |Remove(ms, id)| <= |ms|
    decreases |ms|
  {
    if ms != [] {
      RemoveKeepsOthers(ms[1..], id);
      assert ms == [ms[0]] + ms[1..];
    }
  }

  lemma {:induction false} MarkFirstMarks(ms: seq<Player>, c: u32, b: bool)
    ensures |MarkFirst(ms, c, b)| == |ms|
    ensures forall k :: 0 <= k < |ms| ==>
              MarkFirst(ms, c, b)[k] == ms[k] || (ms[k].conn == c && MarkFirst(ms, c, b)[k] == ms[k].(online := b))
    ensures Distinct(ms) ==> forall k :: 0 <= k < |ms| && ms[k].conn == c ==> MarkFirst(ms, c, b)[k].online == b
    decreases |ms|
  {
    if ms != [] && ms[0].conn != c {
      MarkFirstMarks(ms[1..], c, b);
      if Distinct(ms) { DistinctTail(ms); }
      forall k | 0 < k < |ms| ensures ms[k] == ms[1..][k - 1] && MarkFirst(ms, c, b)[k] == MarkFirst(ms[1..], c, b)[k - 1] {}
    }
  }

  ghost predicate Distinct(ms: seq<Player>) {
    forall i, j :: 0 <= i < j < |ms| ==> ms[i].conn != ms[j].conn
  }

  lemma DistinctTail(ms: seq<Player>)
    requires ms != [] && Distinct(ms)
    ensures Distinct(ms[1..])
  {
    forall i, j | 0 <= i < j < |ms[1..]| ensures ms[1..][i].conn != ms[1..][j].conn {
      assert ms[1..][i] == ms[i + 1] && ms[1..][j] == ms[j + 1];
    }
  }

  lemma {:induction false} RemoveKeepsDistinct(ms: seq<Player>, id: u32)
    requires Distinct(ms)
    ensures Distinct(Remove(ms, id))
    decreases |ms|
  {
    if ms != [] {
      DistinctTail(ms);
      RemoveKeepsDistinct(ms[1..], id);
      RemoveKeepsOthers(ms[1..], id);
      if ms[0].id != id {
        var rest := Remove(ms[1..], id);
        forall j | 0 <= j < |rest| ensures rest[j].conn != ms[0].conn {
          assert rest[j] in rest;
          var k :| 0 <= k < |ms[1..]| && ms[1..][k] == rest[j];
          assert ms[k + 1] == rest[j];
        }
      }
    }
  }

  // ----- The membership invariant -----

  /** The 32-bit id counters have not wrapped. */
  ghost predicate Unwrapped(s: State) {
    s.nextPlayer <= TWO_32 && s.nextRoom <= TWO_32
  }

  ghost predicate IdsFine(s: State) {
    && s.nextPlayer >= 1 && s.nextRoom >= 1
    && (forall c :: c in s.players ==> s.players[c].conn == c && 1 <= s.players[c].id < s.nextPlayer)
    && (forall c, d :: c in s.players && d in s.players && c != d ==> s.players[c].id != s.players[d].id)
  }

  ghost predicate RoomFine(id: u32, r: Room) {
    r.id == id && 2 <= r.capacity <= 64 && 1 <= |r.members| <= r.capacity
  }

  ghost predicate RoomsFine(s: State) {
    forall r :: r in s.rooms ==> RoomFine(r, s.rooms[r]) && 1 <= r < s.nextRoom
  }

  ghost predicate HasMember(ms: seq<Player>, c: u32, id: u32) {
    exists m :: m in ms && m.conn == c && m.id == id
  }

  ghost predicate SeatedIn(rooms: map<u32, Room>, c: u32, p: Player) {
    p.room != 0 ==> p.room in rooms && HasMember(rooms[p.room].members, c, p.id)
  }

  /** A player's non-zero room exists and contains that player. */
  ghost predicate Seated(s: State) {
    forall c :: c in s.players ==> SeatedIn(s.rooms, c, s.players[c])
  }

  ghost predicate Membership(s: State) {
    IdsFine(s) && RoomsFine(s) && Seated(s)
  }

  lemma DepartSparesOthers(rooms: map<u32, Room>, room: u32, id: u32, c: u32, p: Player)
    requires SeatedIn(rooms, c, p) && p.id != id
    ensures SeatedIn(Depart(rooms, room, id), c, p)
  {
    if p.room != 0 && p.room == room {
      var m :| m in rooms[room].members && m.conn == c && m.id == p.id;
      RemoveKeepsOthers(rooms[room].members, id);
      assert m in Remove(rooms[room].members, id);
    }
  }

  lemma DepartKeepsRoomsFine(s: State, room: u32, id: u32, r: State)
    requires RoomsFine(s) && r.rooms == Depart(s.rooms, room, id) && r.nextRoom == s.nextRoom
    ensures RoomsFine(r)
  {
    if room in s.rooms { RemoveKeepsOthers(s.rooms[room].members, id); }
  }

  lemma DepartKeepsMembership(s: State, c: u32, r: State)
    requires Membership(s) && c in s.players
    requires r.rooms == Depart(s.rooms, s.players[c].room, s.players[c].id)
    requires r.nextRoom == s.nextRoom && r.nextPlayer == s.nextPlayer
    requires r.players == s.players - {c} || r.players == s.players[c := s.players[c].(room := 0)]
    ensures Membership(r)
  {
    DepartKeepsRoomsFine(s, s.players[c].room, s.players[c].id, r);
    forall d | d in r.players ensures SeatedIn(r.rooms, d, r.players[d]) {
      if d != c { DepartSparesOthers(s.rooms, s.players[c].room, s.players[c].id, d, s.players[d]); }
    }
  }

  lemma MarkKeepsMember(ms: seq<Player>, c: u32, b: bool, d: u32, id: u32)
    requires HasMember(ms, d, id)
    ensures HasMember(MarkFirst(ms, c, b), d, id)
  {
    MarkFirstMarks(ms, c, b);
    var m :| m in ms && m.conn == d && m.id == id;
    var k :| 0 <= k < |ms| && ms[k] == m;
    assert MarkFirst(ms, c, b)[k] in MarkFirst(ms, c, b);
  }

  lemma SetOnlineKeepsMembership(s: State, c: u32, b: bool)
    requires Membership(s)
    ensures Membership(SetOnline(s, c, b))
  {
    if c in s.players {
      var r := SetOnline(s, c, b);
      var room := s.players[c].room;
      if room in s.rooms { MarkFirstMarks(s.rooms[room].members, c, b); }
      forall d | d in r.players ensures SeatedIn(r.rooms, d, r.players[d]) {
        assert SeatedIn(s.rooms, d, s.players[d]);
        if s.players[d].room == room && room != 0 {
          MarkKeepsMember(s.rooms[room].members, c, b, d, s.players[d].id);
        }
      }
    }
  }

  lemma LogInKeepsMembership(s: State, c: u32)
    requires Membership(s) && Unwrapped(LogIn(s, c))
    ensures Membership(LogIn(s, c))
  {
    if c in s.players {
      SetOnlineKeepsMembership(s.(pending := s.pending - {c}), c, true);
    } else {
      assert s.nextPlayer % TWO_32 == s.nextPlayer;
      assert forall d :: d in s.players ==> SeatedIn(s.rooms, d, s.players[d]);
    }
  }

  lemma CreateKeepsMembership(s: State, c: u32, n: u32)
    requires Membership(s) && Unwrapped(CreateRoom(s, c, n))
    ensures Membership(CreateRoom(s, c, n))
  {
    if CanCreate(s, c) {
      var r := CreateRoom(s, c, n);
      var id := s.nextRoom % TWO_32;
      assert id == s.nextRoom && id !in s.rooms;
      forall d | d in r.players ensures SeatedIn(r.rooms, d, r.players[d]) {
        if d == c {
          assert s.players[c] in r.rooms[id].members;
        } else {
          assert SeatedIn(s.rooms, d, s.players[d]);
        }
      }
    }
  }

  lemma JoinKeepsMembership(s: State, c: u32, room: u32)
    requires Membership(s)
    ensures Membership(Join(s, c, room))
  {
    if Enters(s, c, room) {
      var r := Join(s, c, room);
      var ms := s.rooms[room].members;
      forall d | d in r.players ensures SeatedIn(r.rooms, d, r.players[d]) {
        if d == c {
          assert s.players[c] in r.rooms[room].members;
        } else if s.players[d].room != 0 {
          assert SeatedIn(s.rooms, d, s.players[d]);
          var m :| m in s.rooms[s.players[d].room].members && m.conn == d && m.id == s.players[d].id;
          assert m in r.rooms[s.players[d].room].members;
        }
      }
    }
  }

  lemma FireKeepsMembership(s: State, t: Timer)
    requires Membership(s)
    ensures Membership(FireTimer(s, t))
  {
    if t in s.timers && s.now >= t.due && t.conn in s.pending && s.pending[t.conn] == t.gen && t.conn in s.players {
      DepartKeepsMembership(s, t.conn, FireTimer(s, t));
    }
  }

  lemma LeaveKeepsMembership(s: State, c: u32)
    requires Membership(s)
    ensures Membership(Leave(s, c))
  {
    if CanLeave(s, c) { DepartKeepsMembership(s, c, Leave(s, c)); }
  }

  lemma StepKeepsMembership(s: State, e: Event)
    requires Membership(s) && Unwrapped(Apply(s, e))
    ensures Membership(Apply(s, e))
  {
    match e
    case Login(c) => LogInKeepsMembership(s, c);
    case Connected(c) => SetOnlineKeepsMembership(s.(pending := s.pending - {c}), c, true);
    case Disconnected(c) => SetOnlineKeepsMembership(s, c, false);
    case Create(c, n) => CreateKeepsMembership(s, c, n);
    case JoinRoom(c, r) => JoinKeepsMembership(s, c, r);
    case LeaveRoom(c) => LeaveKeepsMembership(s, c);
    case Fire(t) => FireKeepsMembership(s, t);
    case Advance(_) =>
  }

  lemma CountersGrow(s: State, e: Event)
    ensures s.nextPlayer <= Apply(s, e).nextPlayer && s.nextRoom <= Apply(s, e).nextRoom
  {}

  /** In every run a player's non-zero room exists and contains that player, no room is empty, and no
      room holds more members than its capacity, which lies in 2..64. */
  lemma {:induction false} MembershipInEveryRun(es: seq<Event>)
    requires Unwrapped(Run(EMPTY, es))
    ensures Membership(Run(EMPTY, es))
    decreases |es|
  {
    if es != [] {
      var s := Run(EMPTY, es[..|es| - 1]);
      CountersGrow(s, es[|es| - 1]);
      MembershipInEveryRun(es[..|es| - 1]);
      StepKeepsMembership(s, es[|es| - 1]);
    }
  }

  // ----- Exactly one room, exactly once: all runs without a direct switch of rooms -----

  /** Every member record agrees with the player it is about, and nobody is listed twice. */
  ghost predicate RoomExact(ps: map<u32, Player>, room: u32, ms: seq<Player>) {
    && Distinct(ms)
    && forall m :: m in ms ==> m.conn in ps && ps[m.conn] == m.(room := room)
  }

  ghost predicate Exact(s: State) {
    forall r :: r in s.rooms ==> RoomExact(s.players, r, s.rooms[r].members)
  }

  /** What Membership and Exact give a player: one record in its own room, none anywhere else. */
  lemma ExactlyOneSeat(s: State, c: u32)
    requires Membership(s) && Exact(s) && c in s.players
    ensures forall r :: r in s.rooms && r != s.players[c].room ==> forall m :: m in s.rooms[r].members ==> m.conn != c
    ensures s.players[c].room != 0 ==>
              var ms := s.rooms[s.players[c].room].members;
              exists k :: 0 <= k < |ms| && ms[k].conn == c && ms[k].(room := s.players[c].room) == s.players[c]
                          && forall j :: 0 <= j < |ms| && j != k ==> ms[j].conn != c
  {
    if s.players[c].room != 0 {
      var ms := s.rooms[s.players[c].room].members;
      assert SeatedIn(s.rooms, c, s.players[c]);
      var m :| m in ms && m.conn == c && m.id == s.players[c].id;
      var k :| 0 <= k < |ms| && ms[k] == m;
      assert forall j :: 0 <= j < |ms| && j != k ==> ms[j].conn != c;
    }
    forall r, m | r in s.rooms && r != s.players[c].room && m in s.rooms[r].members ensures m.conn != c {
      assert RoomExact(s.players, r, s.rooms[r].members);
    }
  }

  /** The join would put a player into a second room without leaving the first. */
  predicate Switch(s: State, e: Event) {
    e.JoinRoom? && Enters(s, e.conn, e.room) && s.players[e.conn].room != 0
  }

  lemma OthersStayExact(ps: map<u32, Player>, qs: map<u32, Player>, room: u32, ms: seq<Player>, c: u32)
    requires RoomExact(ps, room, ms)
    requires forall m :: m in ms ==> m.conn != c
    requires forall d :: d != c && d in ps ==> d in qs && qs[d] == ps[d]
    ensures RoomExact(qs, room, ms)
  {}

  lemma NotListedElsewhere(s: State, c: u32, r: u32)
    requires Exact(s) && r in s.rooms && (c in s.players ==> s.players[c].room != r)
    ensures forall m :: m in s.rooms[r].members ==> m.conn != c
  {
    assert RoomExact(s.players, r, s.rooms[r].members);
  }

  lemma MarkKeepsRoomExact(ps: map<u32, Player>, room: u32, ms: seq<Player>, c: u32, b: bool)
    requires RoomExact(ps, room, ms) && c in ps
    ensures RoomExact(ps[c := ps[c].(online := b)], room, MarkFirst(ms, c, b))
  {
    MarkFirstMarks(ms, c, b);
    var ns := MarkFirst(ms, c, b);
    forall m | m in ns ensures m.conn in ps && ps[c := ps[c].(online := b)][m.conn] == m.(room := room) {
      var k :| 0 <= k < |ns| && ns[k] == m;
      assert ms[k] in ms;
    }
  }

  lemma SetOnlineKeepsExact(s: State, c: u32, b: bool)
    requires Exact(s)
    ensures Exact(SetOnline(s, c, b))
  {
    if c in s.players {
      var t := SetOnline(s, c, b);
      forall r | r in t.rooms ensures RoomExact(t.players, r, t.rooms[r].members) {
        if r == s.players[c].room {
          MarkKeepsRoomExact(s.players, r, s.rooms[r].members, c, b);
        } else {
          NotListedElsewhere(s, c, r);
          OthersStayExact(s.players, t.players, r, s.rooms[r].members, c);
        }
      }
    }
  }

  lemma RemovedIsUnlisted(s: State, c: u32)
    requires Membership(s) && Exact(s) && c in s.players && s.players[c].room in s.rooms
    ensures var p := s.players[c]; var ms := Remove(s.rooms[p.room].members, p.id);
            RoomExact(s.players, p.room, ms) && forall m :: m in ms ==> m.conn != c
  {
    var p := s.players[c];
    RemoveKeepsDistinct(s.rooms[p.room].members, p.id);
    RemoveKeepsOthers(s.rooms[p.room].members, p.id);
    assert RoomExact(s.players, p.room, s.rooms[p.room].members);
  }

  lemma DepartKeepsExact(s: State, c: u32, t: State)
    requires Membership(s) && Exact(s) && c in s.players
    requires t.rooms == Depart(s.rooms, s.players[c].room, s.players[c].id)
    requires t.players == s.players - {c} || t.players == s.players[c := s.players[c].(room := 0)]
    ensures Exact(t)
  {
    var p := s.players[c];
    forall r | r in t.rooms ensures RoomExact(t.players, r, t.rooms[r].members) {
      var ms := s.rooms[r].members;
      if r == p.room {
        RemovedIsUnlisted(s, c);
        OthersStayExact(s.players, t.players, r, Remove(ms, p.id), c);
      } else {
        NotListedElsewhere(s, c, r);
        OthersStayExact(s.players, t.players, r, ms, c);
      }
    }
  }

  lemma LogInKeepsExact(s: State, c: u32)
    requires Exact(s)
    ensures Exact(LogIn(s, c))
  {
    if c in s.players {
      SetOnlineKeepsExact(s.(pending := s.pending - {c}), c, true);
    } else {
      forall r | r in s.rooms ensures RoomExact(LogIn(s, c).players, r, s.rooms[r].members) {
        NotListedElsewhere(s, c, r);
        OthersStayExact(s.players, LogIn(s, c).players, r, s.rooms[r].members, c);
      }
    }
  }

  lemma CreateKeepsExact(s: State, c: u32, n: u32)
    requires Membership(s) && Exact(s) && Unwrapped(CreateRoom(s, c, n))
    ensures Exact(CreateRoom(s, c, n))
  {
    if CanCreate(s, c) {
      var t := CreateRoom(s, c, n);
      forall r | r in t.rooms ensures RoomExact(t.players, r, t.rooms[r].members) {
        if r in s.rooms && r != s.nextRoom % TWO_32 {
          NotListedElsewhere(s, c, r);
          OthersStayExact(s.players, t.players, r, s.rooms[r].members, c);
        }
      }
    }
  }

  lemma EnterKeepsExact(s: State, c: u32, room: u32)
    requires Membership(s) && Exact(s) && Enters(s, c, room) && s.players[c].room == 0
    ensures Exact(Join(s, c, room))
  {
    var t := Join(s, c, room);
    forall r | r in t.rooms ensures RoomExact(t.players, r, t.rooms[r].members) {
      NotListedElsewhere(s, c, r);
      OthersStayExact(s.players, t.players, r, s.rooms[r].members, c);
      if r == room {
        assert t.rooms[r].members == s.rooms[r].members + [s.players[c]];
        assert forall k :: 0 <= k < |s.rooms[r].members| ==> s.rooms[r].members[k].conn != c;
      }
    }
  }

  /** From an exact state a join keeps every seat exact just when it is not a direct switch of rooms. */
  lemma JoinKeepsExactIff(s: State, c: u32, room: u32)
    requires Membership(s) && Exact(s)
    ensures Exact(Join(s, c, room)) <==> !Switch(s, JoinRoom(c, room))
  {
    if Switch(s, JoinRoom(c, room)) {
      var old_ := s.players[c].room;
      assert SeatedIn(s.rooms, c, s.players[c]);
      var m :| m in s.rooms[old_].members && m.conn == c && m.id == s.players[c].id;
      assert !RoomExact(Join(s, c, room).players, old_, Join(s, c, room).rooms[old_].members);
    } else if Enters(s, c, room) {
      EnterKeepsExact(s, c, room);
    }
  }

  lemma LeaveKeepsExact(s: State, c: u32)
    requires Membership(s) && Exact(s)
    ensures Exact(Leave(s, c))
  {
    if CanLeave(s, c) { DepartKeepsExact(s, c, Leave(s, c)); }
  }

  lemma FireKeepsExact(s: State, t: Timer)
    requires Membership(s) && Exact(s)
    ensures Exact(FireTimer(s, t))
  {
    if t in s.timers && s.now >= t.due && t.conn in s.pending && s.pending[t.conn] == t.gen && t.conn in s.players {
      DepartKeepsExact(s, t.conn, FireTimer(s, t));
    }
  }

  lemma StepKeepsExact(s: State, e: Event)
    requires Membership(s) && Exact(s) && Unwrapped(Apply(s, e)) && !Switch(s, e)
    ensures Exact(Apply(s, e))
  {
    match e
    case Login(c) => LogInKeepsExact(s, c);
    case Connected(c) => SetOnlineKeepsExact(s.(pending := s.pending - {c}), c, true);
    case Disconnected(c) => SetOnlineKeepsExact(s, c, false);
    case Create(c, n) => CreateKeepsExact(s, c, n);
    case JoinRoom(c, r) => JoinKeepsExactIff(s, c, r);
    case LeaveRoom(c) => LeaveKeepsExact(s, c);
    case Fire(t) => FireKeepsExact(s, t);
    case Advance(_) =>
  }

  /** Nobody joins a second room without leaving the first. */
  predicate NoSwitches(es: seq<Event>)
    decreases |es|
  {
    es == [] || (NoSwitches(es[..|es| - 1]) && !Switch(Run(EMPTY, es[..|es| - 1]), es[|es| - 1]))
  }

  /** In every run without a direct switch, every member record is accurate: each player is listed once
      in its own room, with its current online flag, and nowhere else. */
  lemma {:induction false} ExactInEveryRun(es: seq<Event>)
    requires Unwrapped(Run(EMPTY, es)) && NoSwitches(es)
    ensures Exact(Run(EMPTY, es))
    decreases |es|
  {
    if es != [] {
      var s := Run(EMPTY, es[..|es| - 1]);
      CountersGrow(s, es[|es| - 1]);
      MembershipInEveryRun(es[..|es| - 1]);
      ExactInEveryRun(es[..|es| - 1]);
      StepKeepsExact(s, es[|es| - 1]);
    }
  }

  // ----- A run with a direct switch -----

  const TWO_ROOMS := [Login(1)] + [Login(2)] + [Create(1, 4)] + [Create(2, 4)]

  lemma TwoPlayers()
    ensures Run(EMPTY, [Login(1)] + [Login(2)])
            == State(0, map[1 := Player(1, 1, 0, true), 2 := Player(2, 2, 0, true)], map[], 3, 1, map[], multiset{})
  {
    AfterAnother([], Login(1));
    assert [] + [Login(1)] == [Login(1)];
    AfterAnother([Login(1)], Login(2));
  }

  lemma TwoRooms()
    ensures Run(EMPTY, TWO_ROOMS)
            == State(0, map[1 := Player(1, 1, 1, true), 2 := Player(2, 2, 2, true)],
                     map[1 := Room(1, 4, [Player(1, 1, 0, true)]), 2 := Room(2, 4, [Player(2, 2, 0, true)])],
                     3, 3, map[], multiset{})
  {
    TwoPlayers();
    AfterAnother([Login(1)] + [Login(2)], Create(1, 4));
    assert Run(EMPTY, [Login(1)] + [Login(2)] + [Create(1, 4)])
           == State(0, map[1 := Player(1, 1, 1, true), 2 := Player(2, 2, 0, true)],
                    map[1 := Room(1, 4, [Player(1, 1, 0, true)])], 3, 2, map[], multiset{});
    AfterAnother([Login(1)] + [Login(2)] + [Create(1, 4)], Create(2, 4));
  }

  /** Two players in rooms of their own, every record accurate; one joins the other directly, and its
      first room keeps a record of somebody who is gone. */
  lemma SwitchLeavesARecordBehind()
    ensures var s := Run(EMPTY, TWO_ROOMS);
            && Membership(s) && Exact(s) && Switch(s, JoinRoom(1, 2))
            && !Exact(Apply(s, JoinRoom(1, 2)))
  {
    TwoRooms();
    MembershipInEveryRun(TWO_ROOMS);
    AccurateRooms(Run(EMPTY, TWO_ROOMS));
    JoinKeepsExactIff(Run(EMPTY, TWO_ROOMS), 1, 2);
  }

  lemma AccurateRooms(s: State)
    requires s.rooms == map[1 := Room(1, 4, [Player(1, 1, 0, true)]), 2 := Room(2, 4, [Player(2, 2, 0, true)])]
    requires s.players == map[1 := Player(1, 1, 1, true), 2 := Player(2, 2, 2, true)]
    ensures Exact(s) && Switch(s, JoinRoom(1, 2))
  {
    OneRecord(s.players, 1, Player(1, 1, 0, true));
    OneRecord(s.players, 2, Player(2, 2, 0, true));
  }

  lemma OneRecord(ps: map<u32, Player>, room: u32, m: Player)
    requires m.conn in ps && ps[m.conn] == m.(room := room)
    ensures RoomExact(ps, room, [m])
  {}
}
