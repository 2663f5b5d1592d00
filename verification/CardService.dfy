/** The card service as the program updates it (crates/grimoire-card-svc/src/main.rs). */
module CardService {
  import opened Common
  import opened CardRules
  import opened CardModel

  /** Two different players, both still standing. */
  predicate OpenGameOfTwo(players: seq<Seat>) {
    |players| == 2 && players[0].id != players[1].id && players[0].hp > 0 && players[1].hp > 0
  }

  class CardGame {
    const id: u32
    var phase: Phase
    var turn: nat
    var winner: u32
    var players: seq<Seat>

    function Model(): Game
      reads this
    {
      Game(id, phase, turn, winner, players)
    }

    constructor (id: u32, conn: u32, player: u32, hand: seq<Card>)
      ensures Model() == NewGame(id, conn, player, hand)
      ensures this.id == id && phase == Playing && turn == 0 && winner == 0 && players == [Seat(player, conn, 20, 0, hand)]
    {
      this.id, phase, turn, winner := id, Playing, 0, 0;
      players := [NewSeat(conn, player, hand)];
    }

    method AddPlayer(conn: u32, player: u32, hand: seq<Card>)
      modifies this`players
      ensures Model() == CardRules.AddPlayer(old(Model()), conn, player, hand)
      ensures players == old(players) + [Seat(player, conn, 20, 0, hand)]
    {
      players := players + [NewSeat(conn, player, hand)];
    }

    method PlayerIdxOf(player: u32) returns (r: Option<nat>)
      ensures r == IndexOf(players, player)
      ensures r.Some? ==> r.value < |players| && players[r.value].id == player
      ensures forall k :: 0 <= k < (if r.Some? then r.value else |players|) ==> players[k].id != player
    {
      IndexOfIsFirst(players, player);
      var i := 0;
      while i < |players| && players[i].id != player
        invariant 0 <= i <= |players|
        invariant IndexOf(players, player) == Shift(IndexOf(players[i..], player), i)
      {
        assert players[i..][1..] == players[i + 1..];
        i := i + 1;
      }
      return if i < |players| then Some(i) else None;
    }

    method OtherThan(player: u32) returns (r: Option<nat>)
      ensures r == IndexOther(players, player)
      ensures r.Some? ==> r.value < |players| && players[r.value].id != player
      ensures forall k :: 0 <= k < (if r.Some? then r.value else |players|) ==> players[k].id == player
    {
      IndexOtherIsFirst(players, player);
      var i := 0;
      while i < |players| && players[i].id == player
        invariant 0 <= i <= |players|
        invariant IndexOther(players, player) == Shift(IndexOther(players[i..], player), i)
      {
        assert players[i..][1..] == players[i + 1..];
        i := i + 1;
      }
      return if i < |players| then Some(i) else None;
    }

    method CheckFinish()
      modifies this`phase, this`winner
      ensures Model() == CheckFrom(old(Model()), 0)
      ensures |players| == 2 && players[0].id != players[1].id ==>
                if players[0].hp == 0 then phase == Finished && winner == players[1].id
                else if players[1].hp == 0 then phase == Finished && winner == players[0].id
                else phase == old(phase) && winner == old(winner)
    {
      if |players| == 2 && players[0].id != players[1].id {
        CheckOfTwo(Model());
      }
      var i := 0;
      while i < |players|
        invariant 0 <= i <= |players|
        invariant Model() == old(Model())
        invariant CheckFrom(Model(), 0) == CheckFrom(Model(), i)
      {
        if players[i].hp == 0 {
          var other := OtherThan(players[i].id);
          phase, winner := Finished, if other.Some? then players[other.value].id else 0;
          return;
        }
        i := i + 1;
      }
    }

    method ViewFor(recipient: nat) returns (v: View)
      requires turn < |players|
      ensures v == CardRules.ViewFor(Model(), recipient)
      ensures v.game == id && v.turnPlayer == players[turn].id && v.phase == phase && v.winner == winner
      ensures |v.seats| == |players|
      ensures forall i :: 0 <= i < |players| ==>
                && v.seats[i].id == players[i].id && v.seats[i].hp == players[i].hp && v.seats[i].score == players[i].score
                && v.seats[i].handCount == |players[i].hand|
                && v.seats[i].hand == if i == recipient then players[i].hand else []
    {
      var views: seq<SeatView> := [];
      var i := 0;
      while i < |players|
        invariant 0 <= i == |views| <= |players|
        invariant forall k :: 0 <= k < i ==> views[k] == ViewSeat(players[k], k == recipient)
      {
        views := views + [ViewSeat(players[i], i == recipient)];
        i := i + 1;
      }
      v := View(id, players[turn].id, phase, winner, views);
      assert v.seats == CardRules.ViewFor(Model(), recipient).seats;
    }

    /** Give the newcomer a seat, if there is one to give. */
    method SitDown(conn: u32, player: u32, hand: seq<Card>) returns (idx: nat)
      modifies this`players
      ensures (Model(), idx) == CardModel.SitDown(old(Model()), conn, player, hand)
      ensures var known := exists k :: 0 <= k < |old(players)| && old(players)[k].conn == conn;
              if |old(players)| < 2 && !known
              then players == old(players) + [Seat(player, conn, 20, 0, hand)] && idx == |old(players)|
              else players == old(players) && idx == 0
    {
      if |players| >= GAME_CAPACITY {
        return 0;
      }
      var i := 0;
      while i < |players|
        invariant 0 <= i <= |players|
        invariant forall k :: 0 <= k < i ==> players[k].conn != conn
      {
        if players[i].conn == conn {
          assert HasConn(Model(), conn);
          var found := PlayerIdxOf(player);
          return if found.Some? then found.value else 0;
        }
        i := i + 1;
      }
      assert !HasConn(Model(), conn);
      AddPlayer(conn, player, hand);
      return |players| - 1;
    }

    /** The player a card of this player hits. */
    method FindVictim(me: nat, target: u32) returns (v: nat)
      requires me < |players| && IndexOther(players, players[me].id).Some?
      ensures v == Victim(Model(), me, target)
    {
      var other := OtherThan(players[me].id);
      v := other.value;
      if target != 0 {
        var named := PlayerIdxOf(target);
        if named.Some? && named.value != me {
          v := named.value;
        }
      }
    }

    /** Take the card from the hand, hurt the victim, book the score, and see whether that ended it. */
    method Strike(me: nat, handIndex: nat, victim: nat)
      requires me < |players| && victim < |players| && handIndex < |players[me].hand|
      modifies this
      ensures Model() == CardRules.Play(old(Model()), me, handIndex, victim)
    {
      var card := players[me].hand[handIndex];
      players := players[me := players[me].(hand := RemoveAt(players[me].hand, handIndex))];
      players := players[victim := players[victim].(hp := Hurt(players[victim].hp, card.power))];
      players := players[me := players[me].(score := players[me].score + card.power)];
      CheckFinish();
      if phase == Playing {
        turn := victim;
      }
    }

    /** The checks and the move of one play; the caller has found its seat. */
    method Play(me: nat, handIndex: nat, target: u32) returns (refusal: Option<Refusal>)
      requires me < |players|
      requires Refused(Model(), me, handIndex).None? ==> IndexOther(players, players[me].id).Some?
      modifies this
      ensures refusal == Refused(old(Model()), me, handIndex)
      ensures old(phase) == Finished ==> refusal == Some(Over)
      ensures old(phase) == Playing && old(turn) != me ==> refusal == Some(NotYourTurn)
      ensures old(phase) == Playing && old(turn) == me && handIndex >= |old(players)[me].hand| ==> refusal == Some(NoSuchCard)
      ensures old(phase) == Playing && old(turn) == me && handIndex < |old(players)[me].hand| ==>
                refusal == if |old(players)| <= 1 then Some(NoOpponent) else None
      ensures refusal.Some? ==> Model() == old(Model())
      ensures refusal.None? ==>
        Model() == CardRules.Play(old(Model()), me, handIndex, Victim(old(Model()), me, target))
      ensures refusal.None? && OpenGameOfTwo(old(players)) ==> Hit(old(Model()), Model(), me, handIndex)
    {
      ghost var before := Model();
      if phase != Playing {
        return Some(Over);
      }
      if turn != me {
        return Some(NotYourTurn);
      }
      if handIndex >= |players[me].hand| {
        return Some(NoSuchCard);
      }
      if |players| <= 1 {
        return Some(NoOpponent);
      }
      var victim := FindVictim(me, target);
      Strike(me, handIndex, victim);
      if OpenGameOfTwo(before.seats) {
        CardHitsOpponent(before, me, handIndex, target);
      }
      return None;
    }

    method EndTurn(me: nat) returns (ok: bool)
      requires me < |players|
      modifies this`turn
      ensures ok == MayPass(old(Model()), me)
      ensures Model() == if ok then Pass(old(Model()), me) else old(Model())
      ensures ok <==> phase == Playing && old(turn) == me
      ensures turn == if ok then (if me + 1 == |players| then 0 else me + 1) else old(turn)
    {
      if phase != Playing || turn != me {
        return false;
      }
      turn := (me + 1) % |players|;
      return true;
    }
  }

  function Shift(r: Option<nat>, k: nat): Option<nat> {
    if r.None? then None else Some(r.value + k)
  }

  /** The connection's entry leads to a game that can be shown. */
  predicate Seats(s: State, conn: u32) {
    InGame(s, conn) && s.games[s.connGame[conn].game].turn < |s.games[s.connGame[conn].game].seats|
  }

  class App {
    var games: map<u32, CardGame>
    var connGame: map<u32, Place>
    var nextPlayer: nat
    var nextGame: nat

    ghost predicate Valid()
      reads this
    {
      forall g, h :: g in games && h in games && games[g] == games[h] ==> g == h
    }

    ghost function Model(): State
      reads this, games.Values
    {
      State(map g | g in games :: games[g].Model(), connGame, nextPlayer, nextGame)
    }

    constructor ()
      ensures Valid() && Model() == CardModel.EMPTY
    {
      games, connGame, nextPlayer, nextGame := map[], map[], 1, 1;
    }

    /** Come upon some waiting game, in whatever order the table is walked. */
    method FindWaiting() returns (gid: Option<u32>)
      ensures gid.Some? ==> gid.value in games && IsWaiting(games[gid.value].Model())
      ensures gid.Some? ==> games[gid.value].phase == Playing && |games[gid.value].players| < 2
      ensures gid.None? ==> forall g <- games :: games[g].phase == Finished || |games[g].players| >= 2
      ensures gid.None? <==> NobodyWaits(Model())
    {
      var left := games.Keys;
      while left != {}
        invariant left <= games.Keys
        invariant forall g <- games :: g !in left ==> !IsWaiting(games[g].Model())
      {
        var g :| g in left;
        var game := games[g];
        if game.phase == Playing && |game.players| < GAME_CAPACITY {
          assert IsWaiting(Model().games[g]);
          return Some(g);
        }
        left := left - {g};
      }
      return None;
    }

    method Enter(conn: u32, player: u32, hand: seq<Card>, gid: u32) returns (idx: nat)
      requires Valid() && gid in games
      modifies this`connGame, games[gid]
      ensures Valid() && Model() == CardModel.Enter(old(Model()), conn, player, hand, gid)
      ensures connGame == old(connGame)[conn := Place(gid, idx)]
    {
      ghost var before := Model();
      var game := games[gid];
      idx := game.SitDown(conn, player, hand);
      connGame := connGame[conn := Place(gid, idx)];
      assert Model().games == before.games[gid := game.Model()];
    }

    method Join(conn: u32, hand: seq<Card>, gid: u32) returns (idx: nat)
      requires Valid() && gid in games
      modifies this`connGame, this`nextPlayer, games[gid]
      ensures Valid() && Model() == JoinWaiting(old(Model()), conn, hand, gid)
      ensures connGame == old(connGame)[conn := Place(gid, idx)]
    {
      ghost var before := Model();
      var player: u32 := nextPlayer % TWO_32;
      nextPlayer := nextPlayer + 1;
      assert Model() == before.(nextPlayer := before.nextPlayer + 1);
      idx := Enter(conn, player, hand, gid);
    }

    method InsertGame(gid: u32, conn: u32, player: u32, hand: seq<Card>)
      requires Valid()
      modifies this`games
      ensures Valid() && gid in games && fresh(games[gid])
      ensures Model() == old(Model()).(games := old(Model()).games[gid := NewGame(gid, conn, player, hand)])
    {
      ghost var before := Model();
      var game := new CardGame(gid, conn, player, hand);
      games := games[gid := game];
      assert Model().games == before.games[gid := NewGame(gid, conn, player, hand)];
    }

    method Open(conn: u32, hand: seq<Card>) returns (gid: u32, idx: nat)
      requires Valid()
      modifies this
      ensures Valid() && Model() == OpenGame(old(Model()), conn, hand)
      ensures gid in games && connGame == old(connGame)[conn := Place(gid, idx)]
    {
      ghost var before := Model();
      var player: u32 := nextPlayer % TWO_32;
      gid := nextGame % TWO_32;
      nextPlayer, nextGame := nextPlayer + 1, nextGame + 1;
      assert Model() == before.(nextPlayer := before.nextPlayer + 1, nextGame := before.nextGame + 1);
      InsertGame(gid, conn, player, hand);
      idx := Enter(conn, player, hand, gid);
    }

    /** Sit down in the game somebody waits in, or open a new one; `pick` is the game found waiting. */
    method Match(conn: u32, hand: seq<Card>) returns (gid: u32, idx: nat, pick: u32)
      requires Valid() && IsDeal(hand) && !InGame(Model(), conn)
      modifies this, games.Values
      ensures Valid() && Model() == DoStart(old(Model()), conn, hand, pick)
      ensures conn in connGame && connGame[conn] == Place(gid, idx) && gid in games
    {
      var target := FindWaiting();
      if target.Some? {
        gid, pick := target.value, target.value;
        assert IsWaiting(Model().games[gid]);
        idx := Join(conn, hand, gid);
      } else {
        pick := 0;
        gid, idx := Open(conn, hand);
      }
    }

    method Start(conn: u32, hand: seq<Card>) returns (view: View, pick: u32)
      requires Valid() && IsDeal(hand) && CallFinds(Model(), conn) && TurnsInRange(Model())
      modifies this, games.Values
      ensures Valid() && Model() == Apply(old(Model()), Event.Start(conn, hand, pick))
      ensures Seats(Model(), conn) && view == CardRules.ViewFor(Model().games[connGame[conn].game], connGame[conn].idx)
      ensures Shown(view, Model().games[connGame[conn].game], connGame[conn].idx)
    {
      if conn in connGame && connGame[conn].game in games {
        pick := 0;
        view := games[connGame[conn].game].ViewFor(connGame[conn].idx);
        return;
      }
      var gid, idx;
      gid, idx, pick := Match(conn, hand);
      StartKeepsTurns(old(Model()), conn, hand, pick);
      assert Model().games[gid] == games[gid].Model();
      view := games[gid].ViewFor(idx);
    }

    method PlayCard(conn: u32, handIndex: nat, target: u32) returns (refusal: Option<Refusal>)
      requires Valid() && CallFinds(Model(), conn)
      modifies games.Values
      ensures Valid() && Model() == Apply(old(Model()), Event.PlayCard(conn, handIndex, target))
      ensures refusal.None? <==> Accepts(old(Model()), conn, handIndex)
      ensures conn !in connGame ==> refusal == Some(NotInGame)
      ensures conn in connGame ==>
                var g := games[connGame[conn].game];
                refusal.None? <==> old(g.phase) == Playing && old(g.turn) == connGame[conn].idx
                                   && handIndex < |old(g.players)[connGame[conn].idx].hand| && |old(g.players)| > 1
      ensures conn in connGame && refusal.None? && OpenGameOfTwo(old(games[connGame[conn].game].players)) ==>
                Hit(old(games[connGame[conn].game].Model()), games[connGame[conn].game].Model(), connGame[conn].idx, handIndex)
    {
      if conn !in connGame {
        return Some(NotInGame);
      }
      var p := connGame[conn];
      var game := games[p.game];
      ghost var before := Model();
      refusal := game.Play(p.idx, handIndex, target);
      assert Model().games == before.games[p.game := game.Model()];
    }

    method EndTurn(conn: u32) returns (ok: bool)
      requires Valid() && CallFinds(Model(), conn)
      modifies games.Values
      ensures Valid() && Model() == Apply(old(Model()), Event.EndTurn(conn))
      ensures ok == Passes(old(Model()), conn)
      ensures ok <==> conn in connGame && old(games[connGame[conn].game].phase) == Playing
                      && old(games[connGame[conn].game].turn) == connGame[conn].idx
    {
      if conn !in connGame {
        return false;
      }
      var p := connGame[conn];
      var game := games[p.game];
      ghost var before := Model();
      ok := game.EndTurn(p.idx);
      assert Model().games == before.games[p.game := game.Model()];
    }
  }
}
