/** The room service as the program updates it (crates/grimoire-room-svc/src/main.rs). */
module RoomApp {
  import opened Common
  import opened RoomModel

  lemma {:induction false} RemoveKeepsTheRest(ms: seq<Player>, id: u32)
    ensures forall m :: m in Remove(ms, id) <==> m in ms && m.id != id
    decreases |ms|
  {
    if ms != [] {
      RemoveKeepsTheRest(ms[1..], id);
      assert ms == [ms[0]] + ms[1..];
    }
  }

  /** Keep every member except the one with this id. */
  method Retain(ms: seq<Player>, id: u32) returns (kept: seq<Player>)
    ensures kept == Remove(ms, id)
    ensures forall m :: m in kept <==> m in ms && m.id != id
  {
    RemoveKeepsTheRest(ms, id);
    kept := [];
    var i := 0;
    while i < |ms|
      invariant 0 <= i <= |ms|
      invariant kept + Remove(ms[i..], id) == Remove(ms, id)
    {
      assert ms[i..][1..] == ms[i + 1..];
      if ms[i].id != id {
        kept := kept + [ms[i]];
      }
      i := i + 1;
    }
  }

  lemma {:induction false} MarkAt(ms: seq<Player>, conn: u32, online: bool, k: nat)
    requires k < |ms| && ms[k].conn == conn && forall j :: 0 <= j < k ==> ms[j].conn != conn
    ensures MarkFirst(ms, conn, online) == ms[k := ms[k].(online := online)]
    decreases |ms|
  {
    if k > 0 {
      MarkAt(ms[1..], conn, online, k - 1);
      assert ms == [ms[0]] + ms[1..];
    }
  }

  lemma {:induction false} MarkNowhere(ms: seq<Player>, conn: u32, online: bool)
    requires forall j :: 0 <= j < |ms| ==> ms[j].conn != conn
    ensures MarkFirst(ms, conn, online) == ms
    decreases |ms|
  {
    if ms != [] {
      MarkNowhere(ms[1..], conn, online);
      assert ms == [ms[0]] + ms[1..];
    }
  }

  /** Find the connection's first record and set its flag. */
  method Mark(ms: seq<Player>, conn: u32, online: bool) returns (marked: seq<Player>)
    ensures marked == MarkFirst(ms, conn, online) && FlagSet(ms, marked, conn, online)
  {
    MarkSetsTheFlag(ms, conn, online);
    var i := 0;
    while i < |ms| && ms[i].conn != conn
      invariant 0 <= i <= |ms|
      invariant forall j :: 0 <= j < i ==> ms[j].conn != conn
    {
      i := i + 1;
    }
    if i < |ms| {
      MarkAt(ms, conn, online, i);
      return ms[i := ms[i].(online := online)];
    }
    MarkNowhere(ms, conn, online);
    return ms;
  }

  class App {
    var players: map<u32, Player>
    var rooms: map<u32, Room>
    var nextPlayer: nat
    var nextRoom: nat
    var pendingRemoval: map<u32, nat>
    /** The clock and the sleeping clean-up tasks belong to the runtime. */
    var now: nat
    var timers: multiset<Timer>

    function Model(): State
      reads this
    {
      State(now, players, rooms, nextPlayer, nextRoom, pendingRemoval, timers)
    }

    constructor ()
      ensures Model() == EMPTY
      ensures players == map[] && rooms == map[] && nextPlayer == 1 && nextRoom == 1
    {
      players, rooms, nextPlayer, nextRoom := map[], map[], 1, 1;
      pendingRemoval, now, timers := map[], 0, multiset{};
    }

    /** Nobody's room, name or id changes, and only this connection's flags. */
    method SetOnline(conn: u32, online: bool)
      modifies this`players, this`rooms
      ensures Model() == RoomModel.SetOnline(old(Model()), conn, online)
      ensures players == if conn in old(players) then old(players)[conn := old(players)[conn].(online := online)] else old(players)
      ensures rooms.Keys == old(rooms).Keys
      ensures forall r <- rooms :: rooms[r].id == old(rooms)[r].id && rooms[r].capacity == old(rooms)[r].capacity
      ensures forall r <- rooms :: if conn in players && players[conn].room == r
                                   then FlagSet(old(rooms)[r].members, rooms[r].members, conn, online)
                                   else rooms[r] == old(rooms)[r]
    {
      if conn in players {
        players := players[conn := players[conn].(online := online)];
      }
      if conn !in players {
        return;
      }
      var roomId := players[conn].room;
      if roomId in rooms {
        var room := rooms[roomId];
        var marked := Mark(room.members, conn, online);
        rooms := rooms[roomId := room.(members := marked)];
      }
    }

    /** A known connection is back: its removal is called off. */
    method Resume(conn: u32)
      requires conn in players
      modifies this`players, this`rooms, this`pendingRemoval
      ensures Model() == RoomModel.Resume(old(Model()), conn)
      ensures players == old(players)[conn := old(players)[conn].(online := true)]
      ensures pendingRemoval == old(pendingRemoval) - {conn}
    {
      pendingRemoval := pendingRemoval - {conn};
      SetOnline(conn, true);
    }

    method Login(conn: u32) returns (id: u32)
      modifies this
      ensures Model() == Apply(old(Model()), Event.Login(conn))
      ensures conn in players && id == players[conn].id
      ensures conn in old(players) ==>
                && players == old(players)[conn := old(players)[conn].(online := true)]
                && pendingRemoval == old(pendingRemoval) - {conn} && nextPlayer == old(nextPlayer)
      ensures conn !in old(players) ==>
                && players == old(players)[conn := Player(conn, old(nextPlayer) % 0x1_0000_0000, 0, true)]
                && pendingRemoval == old(pendingRemoval) && nextPlayer == old(nextPlayer) + 1 && rooms == old(rooms)
      ensures timers == old(timers)
    {
      if conn in players {
        Resume(conn);
        return players[conn].id;
      }
      id := nextPlayer % TWO_32;
      nextPlayer := nextPlayer + 1;
      players := players[conn := Player(conn, id, 0, true)];
    }

    method PlayerConnected(conn: u32)
      modifies this
      ensures Model() == Apply(old(Model()), Connected(conn))
      ensures conn in old(players) ==>
                && players == old(players)[conn := old(players)[conn].(online := true)]
                && pendingRemoval == old(pendingRemoval) - {conn}
      ensures timers == old(timers) && nextPlayer == old(nextPlayer) && nextRoom == old(nextRoom)
    {
      if conn in players {
        Resume(conn);
      }
    }

    method MarkDisconnected(conn: u32)
      requires conn in players
      modifies this
      ensures Model() == Disconnect(old(Model()), conn)
      ensures players == old(players)[conn := old(players)[conn].(online := false)]
      ensures var gen := (if conn in old(pendingRemoval) then old(pendingRemoval)[conn] else 0) + 1;
              && pendingRemoval == old(pendingRemoval)[conn := gen]
              && timers == old(timers) + multiset{Timer(conn, gen, now + 15_000_000_000)}
    {
      ghost var before := Model();
      SetOnline(conn, false);
      ghost var offline := Model();
      if conn !in pendingRemoval {
        pendingRemoval := pendingRemoval[conn := 0];
      }
      pendingRemoval := pendingRemoval[conn := pendingRemoval[conn] + 1];
      timers := timers + multiset{Timer(conn, pendingRemoval[conn], now + GRACE_NS)};
      assert pendingRemoval == before.pending[conn := Generation(before, conn)];
      assert Model() == offline.(pending := pendingRemoval, timers := timers);
    }

    method PlayerDisconnected(conn: u32)
      modifies this
      ensures Model() == Apply(old(Model()), Disconnected(conn))
      ensures conn in old(players) ==> players == old(players)[conn := old(players)[conn].(online := false)]
      ensures conn !in old(players) ==> Model() == old(Model())
    {
      if conn in players {
        MarkDisconnected(conn);
      }
    }

    /** Take the members with this id out of the room; an empty room goes. */
    method Vacate(room: u32, id: u32)
      modifies this`rooms
      ensures rooms == Depart(old(rooms), room, id)
      ensures room in old(rooms) ==>
                var stay := Remove(old(rooms)[room].members, id);
                rooms == if stay == [] then old(rooms) - {room} else old(rooms)[room := old(rooms)[room].(members := stay)]
      ensures room !in old(rooms) ==> rooms == old(rooms)
    {
      if room in rooms {
        var kept := Retain(rooms[room].members, id);
        if kept == [] {
          rooms := rooms - {room};
        } else {
          rooms := rooms[room := rooms[room].(members := kept)];
        }
      }
    }

    method ExpireSession(conn: u32, gen: nat)
      modifies this
      ensures Model() == Expire(old(Model()), conn, gen)
      ensures var current := conn in old(pendingRemoval) && old(pendingRemoval)[conn] == gen;
              && pendingRemoval == old(pendingRemoval) - (if current then {conn} else {})
              && players == old(players) - (if current then {conn} else {})
              && (current && conn in old(players) && old(players)[conn].room in old(rooms) ==>
                    var room := old(players)[conn].room;
                    var stay := Remove(old(rooms)[room].members, old(players)[conn].id);
                    rooms == if stay == [] then old(rooms) - {room} else old(rooms)[room := old(rooms)[room].(members := stay)])
              && (!current ==> rooms == old(rooms))
    {
      if conn !in pendingRemoval || pendingRemoval[conn] != gen {
        return;
      }
      pendingRemoval := pendingRemoval - {conn};
      if conn !in players {
        return;
      }
      var p := players[conn];
      players := players - {conn};
      Vacate(p.room, p.id);
    }

    /** A clean-up task wakes once its time has come. */
    method Wake(t: Timer)
      modifies this
      ensures Model() == Apply(old(Model()), Fire(t))
      ensures timers == old(timers) - (if now >= t.due then multiset{t} else multiset{})
      ensures t !in old(timers) || now < t.due ==> Model() == old(Model())
    {
      if t in timers && now >= t.due {
        timers := timers - multiset{t};
        ExpireSession(t.conn, t.gen);
      } else {
        assert t !in timers ==> timers - multiset{t} == timers;
      }
    }

    method CreateRoom(conn: u32, capacity: u32) returns (created: Option<u32>)
      modifies this
      ensures Model() == Apply(old(Model()), Create(conn, capacity))
      ensures created.Some? <==> conn in old(players) && old(players)[conn].room == 0
      ensures created.None? ==> Model() == old(Model())
      ensures created.Some? ==>
                var places := if capacity < 2 then 2 else if capacity > 64 then 64 else capacity;
                && created.value == old(nextRoom) % 0x1_0000_0000 && nextRoom == old(nextRoom) + 1
                && rooms == old(rooms)[created.value := Room(created.value, places, [old(players)[conn]])]
                && players == old(players)[conn := old(players)[conn].(room := created.value)]
    {
      if conn !in players {
        return None;
      }
      var p := players[conn];
      if p.room != 0 {
        return None;
      }
      var roomId := nextRoom % TWO_32;
      nextRoom := nextRoom + 1;
      rooms := rooms[roomId := Room(roomId, ClampCapacity(capacity), [p])];
      players := players[conn := p.(room := roomId)];
      return Some(roomId);
    }

    /** Succeeds for a member, and for anybody while a place is free, the last one included. */
    method JoinRoom(conn: u32, roomId: u32) returns (ok: bool)
      modifies this
      ensures Model() == Apply(old(Model()), Event.JoinRoom(conn, roomId))
      ensures ok <==> conn in old(players) && roomId in old(rooms)
                      && (old(players)[conn].room == roomId || |old(rooms)[roomId].members| < old(rooms)[roomId].capacity)
      ensures !ok || old(players)[conn].room == roomId ==> Model() == old(Model())
      ensures ok && old(players)[conn].room != roomId ==>
                && rooms == old(rooms)[roomId := old(rooms)[roomId].(members := old(rooms)[roomId].members + [old(players)[conn]])]
                && players == old(players)[conn := old(players)[conn].(room := roomId)]
    {
      if conn !in players {
        return false;
      }
      var p := players[conn];
      if roomId !in rooms {
        return false;
      }
      var room := rooms[roomId];
      if p.room == roomId {
        return true;
      }
      if |room.members| >= room.capacity {
        return false;
      }
      rooms := rooms[roomId := room.(members := room.members + [p])];
      players := players[conn := p.(room := roomId)];
      return true;
    }

    method LeaveRoom(conn: u32) returns (ok: bool)
      modifies this
      ensures Model() == Apply(old(Model()), Event.LeaveRoom(conn))
      ensures ok <==> conn in old(players) && old(players)[conn].room in old(rooms)
      ensures !ok ==> Model() == old(Model())
      ensures ok ==>
                var room := old(players)[conn].room;
                var stay := Remove(old(rooms)[room].members, old(players)[conn].id);
                && players == old(players)[conn := old(players)[conn].(room := 0)]
                && rooms == if stay == [] then old(rooms) - {room} else old(rooms)[room := old(rooms)[room].(members := stay)]
    {
      if conn !in players {
        return false;
      }
      var p := players[conn];
      if p.room !in rooms {
        return false;
      }
      players := players[conn := p.(room := 0)];
      Vacate(p.room, p.id);
      return true;
    }
  }
}
