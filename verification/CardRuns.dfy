/** Whole card games, from the deal to the end. */
module CardRuns {
  import opened Common
  import opened CardRules
  import opened CardModel

  // ----- What later states of a game owe to earlier ones -----

  predicate Follows(g: Game, h: Game) {
    && g.id == h.id && |g.seats| <= |h.seats|
    && (forall i :: 0 <= i < |g.seats| ==> SeatFollows(g.seats[i], h.seats[i]))
    && (g.phase == Finished ==> h == g)
  }

  function CardsPlayed(g: Game): int {
    if |g.seats| == 1 then HAND_SIZE - |g.seats[0].hand|
    else if |g.seats| == 2 then 2 * HAND_SIZE - |g.seats[0].hand| - |g.seats[1].hand|
    else 0
  }

  lemma PlayFollows(g: Game, me: nat, k: nat)
    requires Fair(g) && me < 2 && Refused(g, me, k).None?
    ensures Follows(g, Play(g, me, k, 1 - me))
    ensures CardsPlayed(Play(g, me, k, 1 - me)) == CardsPlayed(g) + 1
  {
    PlayMovesOneCard(g, me, k);
    var h := Play(g, me, k, 1 - me);
    forall i | 0 <= i < 2 ensures SeatFollows(g.seats[i], h.seats[i]) {
      assert i == me || i == 1 - me;
    }
  }

  lemma JoinFollows(g: Game, conn: u32, player: u32, hand: seq<Card>)
    requires Fresh(g) && IsDeal(hand)
    ensures Follows(g, AddPlayer(g, conn, player, hand))
    ensures CardsPlayed(AddPlayer(g, conn, player, hand)) == CardsPlayed(g) == 0
  {
    assert AddPlayer(g, conn, player, hand).seats[0] == g.seats[0];
  }

  lemma PassFollows(g: Game, me: nat)
    requires Sound(g) && me < |g.seats| && MayPass(g, me)
    ensures Follows(g, Pass(g, me)) && CardsPlayed(Pass(g, me)) == CardsPlayed(g)
  {
  }

  function PlayedIn(s: State, gid: u32): int {
    if gid in s.games then CardsPlayed(s.games[gid]) else 0
  }

  predicate IsPlayIn(s: State, e: Event, gid: u32) {
    e.PlayCard? && Accepts(s, e.conn, e.handIndex) && s.connGame[e.conn].game == gid
  }

  predicate GameGoesOn(s: State, t: State, gid: u32) {
    gid in s.games ==> gid in t.games && Follows(s.games[gid], t.games[gid])
  }

  lemma PlayStep(s: State, conn: u32, handIndex: nat, target: u32, gid: u32)
    requires Matched(s)
    ensures var t := DoPlay(s, conn, handIndex, target);
      (GameGoesOn(s, t, gid)
       && PlayedIn(t, gid) == PlayedIn(s, gid) + if IsPlayIn(s, PlayCard(conn, handIndex, target), gid) then 1 else 0)
  {
    if Accepts(s, conn, handIndex) {
      PlayInPlace(s, conn, handIndex, target);
      var p := s.connGame[conn];
      if p.game == gid {
        PlayFollows(s.games[gid], p.idx, handIndex);
      }
    }
  }

  lemma EndTurnStep(s: State, conn: u32, gid: u32)
    requires Matched(s)
    ensures GameGoesOn(s, DoEndTurn(s, conn), gid) && PlayedIn(DoEndTurn(s, conn), gid) == PlayedIn(s, gid)
  {
    if Passes(s, conn) {
      SeatedSoundly(s, conn);
      var p := s.connGame[conn];
      PassFollows(s.games[p.game], p.idx);
    }
  }

  lemma JoinStep(s: State, conn: u32, hand: seq<Card>, pick: u32, gid: u32)
    requires Matched(s) && IsDeal(hand) && !InGame(s, conn) && pick in s.games && IsWaiting(s.games[pick])
    requires Unwrapped(JoinWaiting(s, conn, hand, pick))
    ensures var t := JoinWaiting(s, conn, hand, pick); GameGoesOn(s, t, gid) && PlayedIn(t, gid) == PlayedIn(s, gid)
  {
    JoinedGame(s, conn, hand, pick);
    if gid == pick {
      WaitingIsFresh(s, pick);
      JoinFollows(s.games[pick], conn, s.nextPlayer, hand);
    }
  }

  lemma OpenStep(s: State, conn: u32, hand: seq<Card>, gid: u32)
    requires Matched(s) && IsDeal(hand) && Unwrapped(OpenGame(s, conn, hand))
    ensures var t := OpenGame(s, conn, hand); GameGoesOn(s, t, gid) && PlayedIn(t, gid) == PlayedIn(s, gid)
  {
    NoSuchGameYet(s);
    OpenedGame(s, conn, hand);
  }

  lemma StartStep(s: State, conn: u32, hand: seq<Card>, pick: u32, gid: u32)
    requires Matched(s) && Unwrapped(DoStart(s, conn, hand, pick))
    ensures var t := DoStart(s, conn, hand, pick); GameGoesOn(s, t, gid) && PlayedIn(t, gid) == PlayedIn(s, gid)
  {
    if IsDeal(hand) && !InGame(s, conn) {
      if pick in s.games && IsWaiting(s.games[pick]) {
        JoinStep(s, conn, hand, pick, gid);
      } else if NobodyWaits(s) {
        OpenStep(s, conn, hand, gid);
      }
    }
  }

  lemma StepGoesOn(s: State, e: Event, gid: u32)
    requires Matched(s) && Unwrapped(Apply(s, e))
    ensures GameGoesOn(s, Apply(s, e), gid)
    ensures PlayedIn(Apply(s, e), gid) == PlayedIn(s, gid) + if IsPlayIn(s, e, gid) then 1 else 0
  {
    match e
    case Start(conn, hand, pick) => StartStep(s, conn, hand, pick, gid);
    case PlayCard(conn, handIndex, target) => PlayStep(s, conn, handIndex, target, gid);
    case EndTurn(conn) => EndTurnStep(s, conn, gid);
  }

  lemma BeforeTheLast(s: State, es: seq<Event>)
    requires Matched(s) && Unwrapped(RunFrom(s, es)) && es != []
    ensures Unwrapped(RunFrom(s, es[..|es| - 1])) && Matched(RunFrom(s, es[..|es| - 1]))
  {
    CountersOnlyGrow(RunFrom(s, es[..|es| - 1]), es[|es| - 1]);
    MatchedOnward(s, es[..|es| - 1]);
  }

  lemma FollowsOn(f: Game, g: Game, h: Game)
    requires Follows(f, g) && Follows(g, h)
    ensures Follows(f, h)
  {
    forall i | 0 <= i < |f.seats| ensures SeatFollows(f.seats[i], h.seats[i]) {
      assert SeatFollows(f.seats[i], g.seats[i]) && SeatFollows(g.seats[i], h.seats[i]);
    }
  }

  /** In whatever way a run goes on, a game keeps its players and their seats, what each was dealt
      in all is split between score and hand without loss, and a finished game never changes. */
  lemma {:induction false} NothingIsLost(s: State, es: seq<Event>, gid: u32)
    requires Matched(s) && Unwrapped(RunFrom(s, es)) && gid in s.games
    ensures gid in RunFrom(s, es).games && Follows(s.games[gid], RunFrom(s, es).games[gid])
  {
    if es == [] {
    } else {
      var before := RunFrom(s, es[..|es| - 1]);
      BeforeTheLast(s, es);
      NothingIsLost(s, es[..|es| - 1], gid);
      StepGoesOn(before, es[|es| - 1], gid);
      FollowsOn(s.games[gid], before.games[gid], RunFrom(s, es).games[gid]);
    }
  }

  /** How many cards were accepted in the game in the course of the run. */
  function PlaysIn(s: State, es: seq<Event>, gid: u32): nat {
    if es == [] then 0
    else
      var earlier := es[..|es| - 1];
      PlaysIn(s, earlier, gid) + if IsPlayIn(RunFrom(s, earlier), es[|es| - 1], gid) then 1 else 0
  }

  lemma {:induction false} PlaysAreCounted(s: State, es: seq<Event>, gid: u32)
    requires Matched(s) && Unwrapped(RunFrom(s, es))
    ensures PlayedIn(RunFrom(s, es), gid) == PlayedIn(s, gid) + PlaysIn(s, es, gid)
  {
    if es == [] {
    } else {
      BeforeTheLast(s, es);
      PlaysAreCounted(s, es[..|es| - 1], gid);
      StepGoesOn(RunFrom(s, es[..|es| - 1]), es[|es| - 1], gid);
    }
  }

  /** The accepted plays of a game are the cards gone from its players' hands, so never more than six. */
  lemma SixPlaysAtMost(es: seq<Event>, gid: u32)
    requires Unwrapped(Run(es))
    ensures PlaysIn(EMPTY, es, gid) == PlayedIn(Run(es), gid) <= 6
  {
    PlaysAreCounted(EMPTY, es, gid);
    MatchedInEveryRun(es);
    if gid in Run(es).games {
      SoundInside(Run(es), gid);
    }
  }

  predicate WonPlayedOut(g: Game, w: nat)
    requires w < |g.seats| == 2
  {
    WonBy(g, w) && g.seats[w].hand == [] && Total(g.seats[w]) >= 20
  }

  lemma SoundInside(s: State, gid: u32)
    requires Matched(s) && gid in s.games
    ensures Sound(s.games[gid])
  {
    assert GameSound(gid, s.games[gid], s.nextPlayer, s.nextGame);
  }

  /** In every run a game is finished exactly when one of its two players is out of hit points;
      the other one is the winner, has no card left and was dealt twenty or more. */
  lemma EndOfGame(es: seq<Event>, gid: u32)
    requires Unwrapped(Run(es)) && gid in Run(es).games
    ensures var g := Run(es).games[gid];
      && (g.phase == Finished <==> exists i :: 0 <= i < |g.seats| && g.seats[i].hp == 0)
      && (g.phase == Finished ==> |g.seats| == 2 && exists w: nat :: w < 2 && WonPlayedOut(g, w))
  {
    SoundInRun(es, gid);
    EndOfSoundGame(Run(es).games[gid]);
  }

  lemma SoundInRun(es: seq<Event>, gid: u32)
    requires Unwrapped(Run(es)) && gid in Run(es).games
    ensures Sound(Run(es).games[gid])
  {
    MatchedInEveryRun(es);
    SoundInside(Run(es), gid);
  }

  lemma EndOfSoundGame(g: Game)
    requires Sound(g)
    ensures g.phase == Finished <==> exists i :: 0 <= i < |g.seats| && g.seats[i].hp == 0
    ensures g.phase == Finished ==> |g.seats| == 2 && exists w: nat :: w < 2 && WonPlayedOut(g, w)
  {
    if g.phase == Finished {
      var w := WinnerOf(g);
      assert WonPlayedOut(g, w) && g.seats[1 - w].hp == 0;
    }
  }

  /** In every run everybody's turn pointer is within the seats, so every game can be shown. */
  lemma TurnsInRangeInEveryRun(es: seq<Event>)
    requires Unwrapped(Run(es))
    ensures TurnsInRange(Run(es))
  {
    forall g | g in Run(es).games ensures Run(es).games[g].turn < |Run(es).games[g].seats| {
      SoundInRun(es, g);
    }
  }

  lemma OpponentIsThere(g: Game, me: nat, target: u32)
    requires Sound(g) && me < |g.seats|
    ensures HasOpponent(g.seats, me)
    ensures |g.seats| > 1 ==> |g.seats| == 2 && IndexOther(g.seats, g.seats[me].id).Some? && Victim(g, me, target) == 1 - me
  {
    if |g.seats| == 2 {
      VictimIsOpponent(g, me, target);
    }
  }

  /** The call finds what it looks up; a seat found bears the caller's name, and a card that is not
      refused has an opponent to hit. */
  predicate CallGoesWell(s: State, conn: u32, handIndex: nat, target: u32) {
    && CallFinds(s, conn)
    && (conn in s.connGame ==> s.games[s.connGame[conn].game].seats[s.connGame[conn].idx].conn == conn)
    && (conn in s.connGame && WhyRefused(s, conn, handIndex).None? ==>
          && Accepts(s, conn, handIndex) && |s.games[s.connGame[conn].game].seats| == 2
          && Victim(s.games[s.connGame[conn].game], s.connGame[conn].idx, target) == 1 - s.connGame[conn].idx)
  }

  /** In every run the lookups of a call succeed: a known connection finds its own seat, an
      accepted card finds an opponent, and that is whom it hits whatever target is named. */
  lemma LookupsSucceed(es: seq<Event>, conn: u32, handIndex: nat, target: u32)
    requires Unwrapped(Run(es))
    ensures CallGoesWell(Run(es), conn, handIndex, target)
  {
    MatchedInEveryRun(es);
    CallSucceeds(Run(es), conn, handIndex, target);
  }

  lemma CallSucceeds(s: State, conn: u32, handIndex: nat, target: u32)
    requires Matched(s)
    ensures CallGoesWell(s, conn, handIndex, target)
  {
    if conn in s.connGame {
      SeatedSoundly(s, conn);
      OpponentIsThere(s.games[s.connGame[conn].game], s.connGame[conn].idx, target);
    }
  }

  /** In every run, a player's hit points are what the opponent's score has left of twenty. */
  lemma HitPointsMirrorScores(es: seq<Event>, gid: u32, i: nat)
    requires Unwrapped(Run(es)) && gid in Run(es).games && i < |Run(es).games[gid].seats|
    ensures var seats := Run(es).games[gid].seats;
      && |seats| <= 2
      && (|seats| == 1 ==> seats[i].hp == 20 && seats[i].score == 0)
      && (|seats| == 2 ==> seats[i].hp == if seats[1 - i].score >= 20 then 0 else 20 - seats[1 - i].score)
  {
    SoundInRun(es, gid);
  }

  // ----- Which games can be finished -----

  ghost predicate Ends(s: State, es: seq<Event>, gid: u32) {
    var t := RunFrom(s, es);
    Unwrapped(t) && gid in t.games && t.games[gid].phase == Finished
  }

  ghost predicate CanEnd(s: State, gid: u32) {
    exists es :: Ends(s, es, gid)
  }

  predicate StrongHand(g: Game)
    requires |g.seats| == 2
  {
    Total(g.seats[0]) >= 20 || Total(g.seats[1]) >= 20
  }

  lemma {:induction false} RunInOrder(s: State, e: Event, es: seq<Event>)
    ensures RunFrom(s, [e] + es) == RunFrom(Apply(s, e), es)
  {
    var all := [e] + es;
    if es == [] {
      assert all[..0] == [] && all == [e];
      assert RunFrom(s, [e][..0]) == s;
    } else {
      RunInOrder(s, e, es[..|es| - 1]);
      assert all[..|all| - 1] == [e] + es[..|es| - 1];
    }
  }

  lemma SeatHolder(s: State, gid: u32, i: nat)
    requires Matched(s) && gid in s.games && i < |s.games[gid].seats|
    ensures var c := s.games[gid].seats[i].conn; c in s.connGame && s.connGame[c] == Place(gid, i) && Seated(s, c)
    ensures Sound(s.games[gid])
  {
    assert SeatsKnown(gid, s.games[gid].seats, s.connGame);
    assert GameSound(gid, s.games[gid], s.nextPlayer, s.nextGame);
  }

  lemma StrongPlayerHasACard(g: Game, i: nat)
    requires Sound(g) && |g.seats| == 2 && i < 2 && g.phase == Playing && Total(g.seats[i]) >= INIT_HP
    ensures g.seats[i].hand != []
  {
    assert g.seats[1 - i].hp > 0;
  }

  predicate AtTable(s: State, gid: u32) {
    Unwrapped(s) && gid in s.games && |s.games[gid].seats| == 2
  }

  lemma PassingGivesTheTurn(s: State, conn: u32, gid: u32, i: nat)
    requires AtTable(s, gid) && Sound(s.games[gid]) && s.games[gid].phase == Playing && i < 2 && s.games[gid].turn != i
    requires conn in s.connGame && s.connGame[conn] == Place(gid, 1 - i)
    ensures var t := DoEndTurn(s, conn);
      AtTable(t, gid) && t.games[gid].turn == i && t.games[gid].seats == s.games[gid].seats
  {
    PassIsFair(s.games[gid], 1 - i);
  }

  /** The opponent, whose turn it is, passes. */
  lemma GetTheTurn(s: State, gid: u32, i: nat) returns (e: Event)
    requires Matched(s) && AtTable(s, gid) && s.games[gid].phase == Playing && i < 2 && s.games[gid].turn != i
    ensures var t := Apply(s, e);
      && Matched(t) && AtTable(t, gid)
      && t.games[gid].turn == i && t.games[gid].seats == s.games[gid].seats
  {
    e := EndTurn(s.games[gid].seats[1 - i].conn);
    EndTurnKeepsMatched(s, e.conn);
    SeatHolder(s, gid, 1 - i);
    PassingGivesTheTurn(s, e.conn, gid, i);
  }

  lemma MayPlay(s: State, gid: u32, i: nat)
    requires Matched(s) && AtTable(s, gid) && s.games[gid].phase == Playing && i < 2 && s.games[gid].turn == i
    requires Total(s.games[gid].seats[i]) >= INIT_HP
    ensures var c := s.games[gid].seats[i].conn; c in s.connGame && s.connGame[c] == Place(gid, i) && Accepts(s, c, 0)
    ensures Fair(s.games[gid])
  {
    SeatHolder(s, gid, i);
    StrongPlayerHasACard(s.games[gid], i);
    VictimIsOpponent(s.games[gid], i, 0);
  }

  lemma PlayShortens(s: State, conn: u32, gid: u32, i: nat)
    requires AtTable(s, gid) && Fair(s.games[gid]) && i < 2
    requires conn in s.connGame && s.connGame[conn] == Place(gid, i) && Accepts(s, conn, 0)
    ensures var t := DoPlay(s, conn, 0, 0);
      && AtTable(t, gid)
      && |t.games[gid].seats[i].hand| < |s.games[gid].seats[i].hand|
      && Total(t.games[gid].seats[i]) == Total(s.games[gid].seats[i])
  {
    PlayTable(s, conn, 0, 0);
    PlayMovesOneCard(s.games[gid], i, 0);
  }

  /** A strong player to move has a card, and playing it shortens the hand. */
  lemma PlayOne(s: State, gid: u32, i: nat) returns (e: Event)
    requires Matched(s) && AtTable(s, gid) && s.games[gid].phase == Playing && i < 2 && s.games[gid].turn == i
    requires Total(s.games[gid].seats[i]) >= INIT_HP
    ensures var t := Apply(s, e);
      && Matched(t) && AtTable(t, gid)
      && |t.games[gid].seats[i].hand| < |s.games[gid].seats[i].hand|
      && Total(t.games[gid].seats[i]) >= INIT_HP
  {
    e := PlayCard(s.games[gid].seats[i].conn, 0, 0);
    PlayKeepsMatched(s, e.conn, 0, 0);
    MayPlay(s, gid, i);
    PlayShortens(s, e.conn, gid, i);
  }

  /** A strong player can win by playing out the hand, the opponent passing. */
  lemma {:induction false} PlayToTheEnd(s: State, gid: u32, i: nat) returns (es: seq<Event>)
    requires Matched(s) && AtTable(s, gid) && i < 2 && Total(s.games[gid].seats[i]) >= INIT_HP
    ensures Ends(s, es, gid)
    decreases |s.games[gid].seats[i].hand|, if s.games[gid].turn == i then 0 else 1
  {
    if s.games[gid].phase == Finished {
      es := [];
    } else {
      var e: Event;
      if s.games[gid].turn == i {
        e := PlayOne(s, gid, i);
      } else {
        e := GetTheTurn(s, gid, i);
      }
      var rest := PlayToTheEnd(Apply(s, e), gid, i);
      RunInOrder(s, e, rest);
      es := [e] + rest;
    }
  }

  lemma WinnersWereStrong(g: Game, h: Game)
    requires |g.seats| == 2 && Follows(g, h) && Sound(h) && h.phase == Finished
    ensures StrongHand(g)
  {
    var w := WinnerOf(h);
    assert SeatFollows(g.seats[w], h.seats[w]);
  }

  lemma LaterIsSound(s: State, es: seq<Event>, gid: u32)
    requires Matched(s) && Unwrapped(RunFrom(s, es)) && gid in s.games
    ensures var t := RunFrom(s, es); gid in t.games && Follows(s.games[gid], t.games[gid]) && Sound(t.games[gid])
  {
    NothingIsLost(s, es, gid);
    MatchedOnward(s, es);
    SoundInside(RunFrom(s, es), gid);
  }

  /** Which two-player games can still end is settled by the deal alone: those where
      one of the players was dealt cards worth twenty or more. */
  lemma DealDecides(s: State, gid: u32)
    requires Matched(s) && AtTable(s, gid)
    ensures CanEnd(s, gid) <==> StrongHand(s.games[gid])
  {
    var g := s.games[gid];
    if StrongHand(g) {
      var es := PlayToTheEnd(s, gid, if Total(g.seats[0]) >= INIT_HP then 0 else 1);
    }
    if CanEnd(s, gid) {
      var es :| Ends(s, es, gid);
      LaterIsSound(s, es, gid);
      WinnersWereStrong(g, RunFrom(s, es).games[gid]);
    }
  }

  // ----- A game that never ends -----

  const WEAK_HAND := [DECK[1], DECK[3], DECK[4]]
  const WEAK_START := [Start(1, WEAK_HAND, 0), Start(2, WEAK_HAND, 1)]

  lemma WeakHand()
    ensures IsDeal(WEAK_HAND) && Power(WEAK_HAND) == 15
  {
    assert WEAK_HAND == [Card(2, 6), Card(4, 5), Card(5, 4)];
    assert multiset(WEAK_HAND) == multiset{Card(2, 6), Card(4, 5), Card(5, 4)};
    assert DECK[1] in DECK && DECK[3] in DECK && DECK[4] in DECK;
    PowerOfOneMore([], Card(2, 6));
    PowerOfOneMore([Card(2, 6)], Card(4, 5));
    PowerOfOneMore([Card(2, 6), Card(4, 5)], Card(5, 4));
    assert [] + [Card(2, 6)] == [Card(2, 6)] && [Card(2, 6)] + [Card(4, 5)] == [Card(2, 6), Card(4, 5)];
    assert [Card(2, 6), Card(4, 5)] + [Card(5, 4)] == WEAK_HAND;
  }

  lemma FirstOpens(hand: seq<Card>)
    requires IsDeal(hand)
    ensures Apply(EMPTY, Start(1, hand, 0))
            == State(map[1 := NewGame(1, 1, 1, hand)], map[1 := Place(1, 0)], 2, 2)
  {
    OpenedGame(EMPTY, 1, hand);
  }

  lemma SecondJoins(g: Game, hand: seq<Card>)
    requires IsDeal(hand) && g.phase == Playing && |g.seats| == 1 && g.seats[0].conn == 1
    ensures Apply(State(map[1 := g], map[1 := Place(1, 0)], 2, 2), Start(2, hand, 1))
            == State(map[1 := AddPlayer(g, 2, 2, hand)], map[1 := Place(1, 0), 2 := Place(1, 1)], 3, 2)
  {
    JoinedSeat(g, 2, 2, hand);
  }

  lemma WeakStart()
    ensures Run(WEAK_START) == State(
      map[1 := AddPlayer(NewGame(1, 1, 1, WEAK_HAND), 2, 2, WEAK_HAND)], map[1 := Place(1, 0), 2 := Place(1, 1)], 3, 2)
  {
    WeakHand();
    FirstOpens(WEAK_HAND);
    SecondJoins(NewGame(1, 1, 1, WEAK_HAND), WEAK_HAND);
    TwoSteps(WEAK_START);
  }

  lemma TwoSteps(es: seq<Event>)
    requires |es| == 2
    ensures Run(es) == Apply(Apply(EMPTY, es[0]), es[1])
  {
    assert es[..1][..0] == [] && Run(es[..1]) == Apply(RunFrom(EMPTY, es[..1][..0]), es[0]);
  }

  /** Both players are dealt six, five and four: their game can be played out but never ends. */
  lemma WeakGameNeverEnds()
    ensures AtTable(Run(WEAK_START), 1) && Run(WEAK_START).games[1].phase == Playing
    ensures !CanEnd(Run(WEAK_START), 1)
  {
    WeakHand();
    WeakStart();
    MatchedInEveryRun(WEAK_START);
    DealDecides(Run(WEAK_START), 1);
  }
}
