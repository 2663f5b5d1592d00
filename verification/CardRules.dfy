/** One card game (crates/grimoire-card-svc/src/main.rs): the rules and what they keep.
    Card and player names are not modelled. */
module CardRules {
  import opened Common

  const GAME_CAPACITY := 2
  const INIT_HP := 20
  const HAND_SIZE := 3

  datatype Card = Card(id: nat, power: nat)
  datatype Phase = Playing | Finished
  datatype Seat = Seat(id: u32, conn: u32, hp: nat, score: nat, hand: seq<Card>)
  datatype Game = Game(id: u32, phase: Phase, turn: nat, winner: u32, seats: seq<Seat>)

  const DECK := [Card(1, 8), Card(2, 6), Card(3, 9), Card(4, 5), Card(5, 4), Card(6, 7)]

  /** Distinct cards of the deck. */
  predicate AreDistinct(cards: multiset<Card>) {
    forall c <- cards :: c in DECK && cards[c] == 1
  }

  /** What shuffling the deck and keeping three cards can give. */
  predicate IsDeal(hand: seq<Card>) {
    |hand| == HAND_SIZE && AreDistinct(multiset(hand))
  }

  function Power(cards: seq<Card>): nat {
    if cards == [] then 0 else cards[0].power + Power(cards[1..])
  }

  function RemoveAt(cards: seq<Card>, k: nat): seq<Card>
    requires k < |cards|
  {
    cards[..k] + cards[k + 1..]
  }

  // ----- The moves -----

  function NewSeat(conn: u32, id: u32, hand: seq<Card>): Seat {
    Seat(id, conn, INIT_HP, 0, hand)
  }

  function NewGame(id: u32, conn: u32, player: u32, hand: seq<Card>): Game {
    Game(id, Playing, 0, 0, [NewSeat(conn, player, hand)])
  }

  function AddPlayer(g: Game, conn: u32, player: u32, hand: seq<Card>): Game {
    g.(seats := g.seats + [NewSeat(conn, player, hand)])
  }

  /** The first seat of the player. */
  function IndexOf(seats: seq<Seat>, id: u32): (r: Option<nat>)
    ensures r.Some? ==> r.value < |seats| && seats[r.value].id == id
  {
    if seats == [] then None
    else if seats[0].id == id then Some(0)
    else
      var r := IndexOf(seats[1..], id);
      if r.None? then None else Some(r.value + 1)
  }

  /** The first seat of anybody else. */
  function IndexOther(seats: seq<Seat>, id: u32): (r: Option<nat>)
    ensures r.Some? ==> r.value < |seats| && seats[r.value].id != id
  {
    if seats == [] then None
    else if seats[0].id != id then Some(0)
    else
      var r := IndexOther(seats[1..], id);
      if r.None? then None else Some(r.value + 1)
  }

  lemma {:induction false} IndexOfIsFirst(seats: seq<Seat>, id: u32)
    ensures var r := IndexOf(seats, id);
      forall k :: 0 <= k < (if r.Some? then r.value else |seats|) ==> seats[k].id != id
  {
    if seats != [] && seats[0].id != id {
      IndexOfIsFirst(seats[1..], id);
      assert forall k :: 1 <= k < |seats| ==> seats[k] == seats[1..][k - 1];
    }
  }

  lemma {:induction false} IndexOtherIsFirst(seats: seq<Seat>, id: u32)
    ensures var r := IndexOther(seats, id);
      forall k :: 0 <= k < (if r.Some? then r.value else |seats|) ==> seats[k].id == id
  {
    if seats != [] && seats[0].id == id {
      IndexOtherIsFirst(seats[1..], id);
      assert forall k :: 1 <= k < |seats| ==> seats[k] == seats[1..][k - 1];
    }
  }

  /** The first player without hit points ends the game in favour of the first other player. */
  function CheckFrom(g: Game, i: nat): (r: Game)
    requires i <= |g.seats|
    ensures r.seats == g.seats && r.id == g.id && r.turn == g.turn
    decreases |g.seats| - i
  {
    if i == |g.seats| then g
    else if g.seats[i].hp == 0 then
      var other := IndexOther(g.seats, g.seats[i].id);
      g.(phase := Finished, winner := if other.Some? then g.seats[other.value].id else 0)
    else CheckFrom(g, i + 1)
  }

  datatype Refusal = NotInGame | Over | NotYourTurn | NoSuchCard | NoOpponent

  function Refused(g: Game, me: nat, handIndex: nat): Option<Refusal>
    requires me < |g.seats|
  {
    if g.phase != Playing then Some(Over)
    else if g.turn != me then Some(NotYourTurn)
    else if handIndex >= |g.seats[me].hand| then Some(NoSuchCard)
    else if |g.seats| <= 1 then Some(NoOpponent)
    else None
  }

  /** Whom a card hits: the named player unless that is the one who plays it, else the first other player. */
  function Victim(g: Game, me: nat, target: u32): (v: nat)
    requires me < |g.seats| && IndexOther(g.seats, g.seats[me].id).Some?
    ensures v < |g.seats|
  {
    var named := IndexOf(g.seats, target);
    if target != 0 && named.Some? && named.value != me then named.value
    else IndexOther(g.seats, g.seats[me].id).value
  }

  function Hurt(hp: nat, power: nat): nat {
    if power >= hp then 0 else hp - power
  }

  predicate SamePeople(seats: seq<Seat>, after: seq<Seat>) {
    && |seats| == |after|
    && forall i :: 0 <= i < |seats| ==> seats[i].id == after[i].id && seats[i].conn == after[i].conn
  }

  function Struck(seats: seq<Seat>, me: nat, handIndex: nat, victim: nat): (r: seq<Seat>)
    requires me < |seats| && victim < |seats| && handIndex < |seats[me].hand|
    ensures SamePeople(seats, r)
  {
    var card := seats[me].hand[handIndex];
    var s1 := seats[me := seats[me].(hand := RemoveAt(seats[me].hand, handIndex))];
    var s2 := s1[victim := s1[victim].(hp := Hurt(s1[victim].hp, card.power))];
    s2[me := s2[me].(score := s2[me].score + card.power)]
  }

  function Play(g: Game, me: nat, handIndex: nat, victim: nat): Game
    requires me < |g.seats| && victim < |g.seats| && handIndex < |g.seats[me].hand|
  {
    var g1 := CheckFrom(g.(seats := Struck(g.seats, me, handIndex, victim)), 0);
    if g1.phase == Playing then g1.(turn := victim) else g1
  }

  predicate MayPass(g: Game, me: nat) {
    g.phase == Playing && g.turn == me
  }

  function Pass(g: Game, me: nat): Game
    requires |g.seats| > 0
  {
    g.(turn := (me + 1) % |g.seats|)
  }

  // ----- What the rules keep -----

  /** The score is the power of the cards played, and those together with the hand are one deal. */
  predicate Spent(played: seq<Card>, hand: seq<Card>, score: nat) {
    && |played| + |hand| == HAND_SIZE
    && AreDistinct(multiset(played) + multiset(hand))
    && score == Power(played)
  }

  ghost predicate Accounted(s: Seat) {
    exists played :: Spent(played, s.hand, s.score)
  }

  /** What the player was dealt in all. */
  function Total(s: Seat): nat {
    s.score + Power(s.hand)
  }

  /** The same player, dealt the same in all, having played at least as much. */
  predicate SeatFollows(s: Seat, t: Seat) {
    && s.id == t.id && s.conn == t.conn && Total(s) == Total(t)
    && s.score <= t.score && |t.hand| <= |s.hand|
  }

  predicate HurtByOpponent(s: Seat, opponent: Seat) {
    s.hp == (if opponent.score >= 20 then 0 else 20 - opponent.score)
  }

  ghost predicate Fresh(g: Game) {
    && |g.seats| == 1 && g.turn == 0 && g.phase == Playing && g.winner == 0
    && g.seats[0].hp == INIT_HP && g.seats[0].score == 0 && IsDeal(g.seats[0].hand)
  }

  /** A full game: hit points mirror the opponent's score, and the game is over exactly
      when one player has none left, the other one having won. */
  ghost predicate Fair(g: Game) {
    && |g.seats| == 2 && g.turn < 2 && g.seats[0].id != g.seats[1].id
    && Accounted(g.seats[0]) && Accounted(g.seats[1])
    && HurtByOpponent(g.seats[0], g.seats[1]) && HurtByOpponent(g.seats[1], g.seats[0])
    && (g.phase == Playing ==> g.seats[0].hp > 0 && g.seats[1].hp > 0 && g.winner == 0)
    && (g.phase == Finished ==> exists w: nat :: w < 2 && WonBy(g, w))
  }

  predicate WonBy(g: Game, w: nat)
    requires w < |g.seats| == 2
  {
    g.seats[w].hp > 0 && g.seats[1 - w].hp == 0 && g.winner == g.seats[w].id
  }

  ghost predicate Sound(g: Game) {
    && (Fresh(g) || Fair(g))
    && forall i :: 0 <= i < |g.seats| ==> g.seats[i].id != 0
  }

  // ----- Cards -----

  lemma {:induction false} PowerWithout(cards: seq<Card>, k: nat)
    requires k < |cards|
    ensures Power(cards) == Power(RemoveAt(cards, k)) + cards[k].power
  {
    if k == 0 {
      assert RemoveAt(cards, 0) == cards[1..];
    } else {
      PowerWithout(cards[1..], k - 1);
      assert RemoveAt(cards, k)[1..] == RemoveAt(cards[1..], k - 1);
    }
  }

  lemma {:induction false} PowerOfOneMore(cards: seq<Card>, c: Card)
    ensures Power(cards + [c]) == Power(cards) + c.power
  {
    if cards != [] {
      PowerOfOneMore(cards[1..], c);
      assert (cards + [c])[1..] == cards[1..] + [c];
    }
  }

  lemma CardsWithout(cards: seq<Card>, k: nat)
    requires k < |cards|
    ensures multiset(cards) == multiset(RemoveAt(cards, k)) + multiset{cards[k]}
  {
    assert cards == cards[..k] + [cards[k]] + cards[k + 1..];
  }

  /** The deck: six cards, each with its own power. */
  lemma DeckExactly(c: Card)
    ensures c in DECK <==> (c.id, c.power) in {(1, 8), (2, 6), (3, 9), (4, 5), (5, 4), (6, 7)}
    ensures |DECK| == 6
  {
    assert c in DECK <==> c == DECK[0] || c == DECK[1] || c == DECK[2] || c == DECK[3] || c == DECK[4] || c == DECK[5];
  }

  /** A deal is any three different cards of the deck, in any order. */
  lemma DealsExactly(hand: seq<Card>)
    ensures IsDeal(hand) <==>
      |hand| == 3 && hand[0] in DECK && hand[1] in DECK && hand[2] in DECK
      && hand[0] != hand[1] && hand[0] != hand[2] && hand[1] != hand[2]
  {
    if |hand| == 3 {
      var a, b, c := hand[0], hand[1], hand[2];
      assert hand == [a, b, c];
      CardsOfThree(a, b, c);
    }
  }

  lemma CardsOfThree(a: Card, b: Card, c: Card)
    ensures multiset([a, b, c]) == multiset{a, b, c}
    ensures AreDistinct(multiset{a, b, c}) <==> a in DECK && b in DECK && c in DECK && a != b && a != c && b != c
  {
    var m := multiset{a, b, c};
    assert a in m && b in m && c in m;
    if AreDistinct(m) {
      assert m[a] == 1 && m[b] == 1 && m[c] == 1;
    }
  }

  lemma StrongestCard(c: Card)
    requires c in DECK
    ensures c.power <= 9 && (c.power == 9 ==> c == DECK[2])
  {
    assert c == DECK[0] || c == DECK[1] || c == DECK[2] || c == DECK[3] || c == DECK[4] || c == DECK[5];
  }

  lemma PairOfCards(played: seq<Card>)
    requires |played| == 2 && AreDistinct(multiset(played))
    ensures played[0] in DECK && played[1] in DECK && played[0] != played[1]
  {
    var a, b := played[0], played[1];
    assert played == [a, b];
    assert a in multiset(played) && b in multiset(played);
    assert multiset(played) == multiset{a, b};
  }

  lemma PowerOfTwo(played: seq<Card>)
    requires |played| == 2
    ensures Power(played) == played[0].power + played[1].power
  {
    assert Power(played[1..]) == played[1].power + Power(played[1..][1..]);
  }

  /** Two different cards never add up to more than seventeen. */
  lemma TwoCardsAreWeak(played: seq<Card>)
    requires |played| <= 2 && AreDistinct(multiset(played))
    ensures Power(played) <= 17
  {
    if |played| == 1 {
      assert played[0] in multiset(played);
      StrongestCard(played[0]);
      assert Power(played[1..]) == 0;
    } else if |played| == 2 {
      PairOfCards(played);
      PowerOfTwo(played);
      StrongestCard(played[0]);
      StrongestCard(played[1]);
    }
  }

  /** A score of twenty takes all three cards. */
  lemma WinningTakesThreeCards(s: Seat)
    requires Accounted(s)
    ensures s.score >= 20 ==> s.hand == []
  {
    var played :| Spent(played, s.hand, s.score);
    if |played| <= 2 {
      assert forall c <- multiset(played) :: c in multiset(played) + multiset(s.hand);
      TwoCardsAreWeak(played);
    }
  }

  lemma DealtIsAccounted(s: Seat)
    requires s.score == 0 && IsDeal(s.hand)
    ensures Accounted(s)
  {
    assert multiset([]) + multiset(s.hand) == multiset(s.hand);
    assert Spent([], s.hand, 0);
  }

  lemma SpendOne(played: seq<Card>, hand: seq<Card>, score: nat, k: nat)
    requires Spent(played, hand, score) && k < |hand|
    ensures Spent(played + [hand[k]], RemoveAt(hand, k), score + hand[k].power)
  {
    CardsWithout(hand, k);
    PowerOfOneMore(played, hand[k]);
    assert multiset(played + [hand[k]]) + multiset(RemoveAt(hand, k)) == multiset(played) + multiset(hand);
  }

  /** Moving a card from the hand to the score keeps the account and the total. */
  lemma PlayedIsAccounted(s: Seat, k: nat, t: Seat)
    requires Accounted(s) && k < |s.hand|
    requires t.hand == RemoveAt(s.hand, k) && t.score == s.score + s.hand[k].power
    ensures Accounted(t) && Total(t) == Total(s)
  {
    var played :| Spent(played, s.hand, s.score);
    SpendOne(played, s.hand, s.score, k);
    PowerWithout(s.hand, k);
  }

  // ----- Moves -----

  /** Whatever target is named, the card hits the one opponent. */
  lemma VictimIsOpponent(g: Game, me: nat, target: u32)
    requires |g.seats| == 2 && me < 2 && g.seats[0].id != g.seats[1].id
    ensures IndexOther(g.seats, g.seats[me].id).Some? && Victim(g, me, target) == 1 - me
  {
    assert g.seats[1 - me].id != g.seats[me].id;
    assert IndexOther(g.seats, g.seats[me].id) == Some(1 - me);
    var named := IndexOf(g.seats, target);
    assert named.Some? ==> named.value == 0 || named.value == 1;
  }

  /** Who, if anybody, is found without hit points in a two-player game. */
  lemma CheckOfTwo(g: Game)
    requires |g.seats| == 2 && g.seats[0].id != g.seats[1].id
    ensures var r := CheckFrom(g, 0);
      && r.seats == g.seats && r.turn == g.turn && r.id == g.id
      && (g.seats[0].hp > 0 && g.seats[1].hp > 0 ==> r == g)
      && (g.seats[0].hp == 0 ==> r.phase == Finished && r.winner == g.seats[1].id)
      && (g.seats[0].hp > 0 && g.seats[1].hp == 0 ==> r.phase == Finished && r.winner == g.seats[0].id)
  {
    assert IndexOther(g.seats, g.seats[0].id) == Some(1);
    assert IndexOther(g.seats, g.seats[1].id) == Some(0);
    assert CheckFrom(g, 2) == g;
  }

  lemma StruckOpponent(seats: seq<Seat>, me: nat, k: nat)
    requires |seats| == 2 && me < 2 && k < |seats[me].hand|
    ensures var r := Struck(seats, me, k, 1 - me);
      var card := seats[me].hand[k];
      && |r| == 2
      && r[me] == seats[me].(hand := RemoveAt(seats[me].hand, k), score := seats[me].score + card.power)
      && r[1 - me] == seats[1 - me].(hp := Hurt(seats[1 - me].hp, card.power))
  {
  }

  /** Who is to move after a card, and whether it ended the game, is a matter of hit points. */
  lemma PlayVerdict(g: Game, me: nat, k: nat)
    requires |g.seats| == 2 && me < 2 && g.seats[0].id != g.seats[1].id && g.seats[0].hp > 0 && g.seats[1].hp > 0
    requires Refused(g, me, k).None?
    ensures var r := Play(g, me, k, 1 - me); var left := Hurt(g.seats[1 - me].hp, g.seats[me].hand[k].power);
      && r.id == g.id && r.seats == Struck(g.seats, me, k, 1 - me)
      && (left == 0 ==> r.phase == Finished && r.winner == g.seats[me].id && r.turn == me)
      && (left > 0 ==> r.phase == Playing && r.winner == g.winner && r.turn == 1 - me)
  {
    StruckOpponent(g.seats, me, k);
    CheckOfTwo(g.(seats := Struck(g.seats, me, k, 1 - me)));
  }

  /** The seats after a card: still accounted for, the same total, hit points again mirroring scores. */
  lemma StruckSeats(g: Game, me: nat, k: nat)
    requires Fair(g) && me < 2 && k < |g.seats[me].hand| && g.phase == Playing
    ensures var r := Struck(g.seats, me, k, 1 - me);
      && Accounted(r[me]) && Accounted(r[1 - me]) && Total(r[me]) == Total(g.seats[me])
      && HurtByOpponent(r[me], r[1 - me]) && HurtByOpponent(r[1 - me], r[me])
      && (r[me].score >= INIT_HP ==> r[me].hand == [])
  {
    StruckOpponent(g.seats, me, k);
    var r := Struck(g.seats, me, k, 1 - me);
    PlayedIsAccounted(g.seats[me], k, r[me]);
    SameAccount(g.seats[1 - me], r[1 - me]);
    WinningTakesThreeCards(r[me]);
  }

  lemma SameAccount(s: Seat, t: Seat)
    requires Accounted(s) && s.hand == t.hand && s.score == t.score
    ensures Accounted(t)
  {
    var played :| Spent(played, s.hand, s.score);
    assert Spent(played, t.hand, t.score);
  }

  /** Everything one accepted card does. */
  lemma PlayLaw(g: Game, me: nat, k: nat)
    requires Fair(g) && me < 2 && Refused(g, me, k).None?
    ensures var r := Play(g, me, k, 1 - me);
      var card := g.seats[me].hand[k];
      && Fair(r) && r.id == g.id
      && r.seats[me] == g.seats[me].(hand := RemoveAt(g.seats[me].hand, k), score := g.seats[me].score + card.power)
      && r.seats[1 - me] == g.seats[1 - me].(hp := Hurt(g.seats[1 - me].hp, card.power))
      && Total(r.seats[me]) == Total(g.seats[me])
      && (r.phase == Finished <==> g.seats[me].score + card.power >= 20)
      && (r.phase == Finished ==> r.winner == g.seats[me].id && r.seats[me].hand == [])
      && (r.phase == Playing ==> r.turn == 1 - me)
  {
    PlayVerdict(g, me, k);
    StruckOpponent(g.seats, me, k);
    StruckSeats(g, me, k);
    var r := Play(g, me, k, 1 - me);
    if r.phase == Finished {
      assert WonBy(r, me);
    }
  }

  /** What an accepted card does in a game of two, in plain words. */
  predicate Hit(g: Game, r: Game, me: nat, k: nat)
    requires |g.seats| == 2 && me < 2 && k < |g.seats[me].hand|
  {
    var mine, yours, card := g.seats[me], g.seats[1 - me], g.seats[me].hand[k];
    && |r.seats| == 2 && r.id == g.id
    && r.seats[me] == Seat(mine.id, mine.conn, mine.hp, mine.score + card.power, mine.hand[..k] + mine.hand[k + 1..])
    && r.seats[1 - me] == Seat(yours.id, yours.conn, if yours.hp <= card.power then 0 else yours.hp - card.power,
                               yours.score, yours.hand)
    && (if yours.hp <= card.power then r.phase == Finished && r.winner == mine.id && r.turn == me
        else r.phase == g.phase && r.winner == g.winner && r.turn == 1 - me)
  }

  lemma CardHitsOpponent(g: Game, me: nat, k: nat, target: u32)
    requires |g.seats| == 2 && me < 2 && g.seats[0].id != g.seats[1].id && g.seats[0].hp > 0 && g.seats[1].hp > 0
    requires Refused(g, me, k).None?
    ensures IndexOther(g.seats, g.seats[me].id).Some? && Hit(g, Play(g, me, k, Victim(g, me, target)), me, k)
  {
    VictimIsOpponent(g, me, target);
    PlayVerdict(g, me, k);
    StruckOpponent(g.seats, me, k);
  }

  /** One card leaves the hand of the player to move, and nobody's total changes. */
  lemma PlayMovesOneCard(g: Game, me: nat, k: nat)
    requires Fair(g) && me < 2 && Refused(g, me, k).None?
    ensures var r := Play(g, me, k, 1 - me);
      && |r.seats| == 2 && r.id == g.id
      && SeatFollows(g.seats[me], r.seats[me]) && SeatFollows(g.seats[1 - me], r.seats[1 - me])
      && |r.seats[me].hand| == |g.seats[me].hand| - 1 && |r.seats[1 - me].hand| == |g.seats[1 - me].hand|
  {
    StruckOpponent(g.seats, me, k);
    PowerWithout(g.seats[me].hand, k);
  }

  /** A finished sound game has a winner, who has played all three cards, worth twenty or more. */
  lemma WinnerOf(g: Game) returns (w: nat)
    requires Sound(g) && g.phase == Finished
    ensures |g.seats| == 2 && w < 2 && WonBy(g, w) && g.seats[w].hand == [] && Total(g.seats[w]) >= INIT_HP
  {
    w :| w < 2 && WonBy(g, w);
    WinningTakesThreeCards(g.seats[w]);
  }

  lemma SecondPlayerStartsFair(g: Game, conn: u32, player: u32, hand: seq<Card>)
    requires Fresh(g) && player != g.seats[0].id && IsDeal(hand)
    ensures Fair(AddPlayer(g, conn, player, hand))
  {
    DealtIsAccounted(g.seats[0]);
    DealtIsAccounted(NewSeat(conn, player, hand));
  }

  lemma PassIsFair(g: Game, me: nat)
    requires Sound(g) && me < |g.seats| && MayPass(g, me)
    ensures Sound(Pass(g, me)) && Pass(g, me).seats == g.seats
    ensures Fresh(g) ==> Pass(g, me) == g
    ensures Fair(g) ==> Pass(g, me).turn == 1 - me
  {
    if Fair(g) {
      assert (me + 1) % 2 == 1 - me;
    } else {
      assert me == 0 && (0 + 1) % 1 == 0;
    }
  }

  /** When both hands are played out, the game is over exactly if one of them was worth twenty. */
  lemma PlayedOut(g: Game)
    requires Fair(g) && g.seats[0].hand == [] && g.seats[1].hand == []
    ensures g.phase == Finished <==> Total(g.seats[0]) >= 20 || Total(g.seats[1]) >= 20
  {
    if g.phase == Finished {
      var w: nat :| w < 2 && WonBy(g, w);
    }
  }

  // ----- What a player is shown -----

  datatype SeatView = SeatView(id: u32, hp: nat, score: nat, hand: seq<Card>, handCount: nat)
  datatype View = View(game: u32, turnPlayer: u32, phase: Phase, winner: u32, seats: seq<SeatView>)

  function ViewSeat(s: Seat, mine: bool): SeatView {
    SeatView(s.id, s.hp, s.score, if mine then s.hand else [], |s.hand|)
  }

  function ViewFor(g: Game, recipient: nat): View
    requires g.turn < |g.seats|
  {
    View(g.id, g.seats[g.turn].id, g.phase, g.winner,
         seq(|g.seats|, i requires 0 <= i < |g.seats| => ViewSeat(g.seats[i], i == recipient)))
  }

  /** The view shows everybody's id, hit points, score and number of cards, the recipient's cards, whose
      turn it is, and how the game stands. */
  predicate Shown(v: View, g: Game, recipient: nat)
    requires g.turn < |g.seats|
  {
    && v.game == g.id && v.turnPlayer == g.seats[g.turn].id && v.phase == g.phase && v.winner == g.winner
    && |v.seats| == |g.seats|
    && forall i :: 0 <= i < |g.seats| ==> SeatShown(v.seats[i], g.seats[i], i == recipient)
  }

  predicate SeatShown(v: SeatView, s: Seat, mine: bool) {
    v.id == s.id && v.hp == s.hp && v.score == s.score && v.handCount == |s.hand| && v.hand == if mine then s.hand else []
  }

  lemma ViewShows(v: View, g: Game, recipient: nat)
    requires g.turn < |g.seats|
    ensures v == ViewFor(g, recipient) <==> Shown(v, g, recipient)
  {
    var w := ViewFor(g, recipient);
    assert Shown(w, g, recipient) by {
      forall i | 0 <= i < |g.seats| ensures SeatShown(w.seats[i], g.seats[i], i == recipient) {
        assert w.seats[i] == ViewSeat(g.seats[i], i == recipient);
      }
    }
    if Shown(v, g, recipient) {
      forall i | 0 <= i < |g.seats| ensures v.seats[i] == w.seats[i] {
        assert SeatShown(v.seats[i], g.seats[i], i == recipient) && SeatShown(w.seats[i], g.seats[i], i == recipient);
      }
      assert v.seats == w.seats;
    }
  }

  predicate SeatsAlike(s: Seat, t: Seat, mine: bool) {
    && s.id == t.id && s.hp == t.hp && s.score == t.score
    && |s.hand| == |t.hand| && (mine ==> s.hand == t.hand)
  }

  /** Only the cards in other players' hands, and everybody's connection, may differ. */
  predicate AlikeFor(g: Game, h: Game, recipient: nat)
    requires g.turn < |g.seats| && h.turn < |h.seats|
  {
    && g.id == h.id && g.phase == h.phase && g.winner == h.winner
    && g.seats[g.turn].id == h.seats[h.turn].id && |g.seats| == |h.seats|
    && forall i :: 0 <= i < |g.seats| ==> SeatsAlike(g.seats[i], h.seats[i], i == recipient)
  }

  /** A view tells everything about the game but the other players' cards, and of those nothing. */
  lemma ViewHidesExactlyTheOtherHands(g: Game, h: Game, recipient: nat)
    requires g.turn < |g.seats| && h.turn < |h.seats|
    ensures ViewFor(g, recipient) == ViewFor(h, recipient) <==> AlikeFor(g, h, recipient)
  {
    var v, w := ViewFor(g, recipient), ViewFor(h, recipient);
    if v == w {
      forall i | 0 <= i < |g.seats| ensures SeatsAlike(g.seats[i], h.seats[i], i == recipient) {
        assert v.seats[i] == w.seats[i];
      }
    }
    if AlikeFor(g, h, recipient) {
      forall i | 0 <= i < |g.seats| ensures v.seats[i] == w.seats[i] {
        assert SeatsAlike(g.seats[i], h.seats[i], i == recipient);
      }
      assert v.seats == w.seats;
    }
  }
}
