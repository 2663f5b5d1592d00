/** Matching and playing card games (crates/grimoire-card-svc/src/main.rs), in runs where nobody
    leaves. Every service call is one atomic step. */
module CardModel {
  import opened Common
  import opened CardRules

  datatype Place = Place(game: u32, idx: nat)

  /** The id counters count calls; the 32-bit ids handed out are their low bits. */
  datatype State = State(games: map<u32, Game>, connGame: map<u32, Place>, nextPlayer: nat, nextGame: nat)

  /** `hand` is what the shuffle deals; `pick` is the waiting game the scan comes upon first. */
  datatype Event =
    | Start(conn: u32, hand: seq<Card>, pick: u32)
    | PlayCard(conn: u32, handIndex: nat, target: u32)
    | EndTurn(conn: u32)

  const EMPTY := State(map[], map[], 1, 1)

  // ----- What each operation does -----

  predicate IsWaiting(g: Game) {
    g.phase == Playing && |g.seats| < GAME_CAPACITY
  }

  predicate InGame(s: State, conn: u32) {
    conn in s.connGame && s.connGame[conn].game in s.games
  }

  predicate HasConn(g: Game, conn: u32) {
    exists i :: 0 <= i < |g.seats| && g.seats[i].conn == conn
  }

  function SitDown(g: Game, conn: u32, player: u32, hand: seq<Card>): (Game, nat) {
    if |g.seats| >= GAME_CAPACITY then (g, 0)
    else if HasConn(g, conn) then
      (g, var found := IndexOf(g.seats, player); if found.Some? then found.value else 0)
    else (AddPlayer(g, conn, player, hand), |g.seats|)
  }

  function Enter(s: State, conn: u32, player: u32, hand: seq<Card>, gid: u32): State
    requires gid in s.games
  {
    var (g, idx) := SitDown(s.games[gid], conn, player, hand);
    s.(games := s.games[gid := g], connGame := s.connGame[conn := Place(gid, idx)])
  }

  predicate NobodyWaits(s: State) {
    forall g <- s.games :: !IsWaiting(s.games[g])
  }

  function JoinWaiting(s: State, conn: u32, hand: seq<Card>, gid: u32): State
    requires gid in s.games
  {
    Enter(s.(nextPlayer := s.nextPlayer + 1), conn, s.nextPlayer % TWO_32, hand, gid)
  }

  function OpenGame(s: State, conn: u32, hand: seq<Card>): State {
    var player: u32 := s.nextPlayer % TWO_32;
    var gid: u32 := s.nextGame % TWO_32;
    var s1 := s.(nextPlayer := s.nextPlayer + 1, nextGame := s.nextGame + 1,
                 games := s.games[gid := NewGame(gid, conn, player, hand)]);
    Enter(s1, conn, player, hand, gid)
  }

  /** A deal that the deck cannot give, and a scan that misses a waiting game, do not happen. */
  function DoStart(s: State, conn: u32, hand: seq<Card>, pick: u32): State {
    if !IsDeal(hand) || InGame(s, conn) then s
    else if pick in s.games && IsWaiting(s.games[pick]) then JoinWaiting(s, conn, hand, pick)
    else if NobodyWaits(s) then OpenGame(s, conn, hand)
    else s
  }

  predicate TurnsInRange(s: State) {
    forall g <- s.games :: s.games[g].turn < |s.games[g].seats|
  }

  lemma StartKeepsTurns(s: State, conn: u32, hand: seq<Card>, pick: u32)
    requires TurnsInRange(s)
    ensures TurnsInRange(DoStart(s, conn, hand, pick))
  {
  }

  /** The seat a connection's calls act on. */
  predicate Seated(s: State, conn: u32) {
    InGame(s, conn) && s.connGame[conn].idx < |s.games[s.connGame[conn].game].seats|
  }

  function WhyRefused(s: State, conn: u32, handIndex: nat): Option<Refusal>
    requires conn in s.connGame ==> Seated(s, conn)
  {
    if conn !in s.connGame then Some(NotInGame)
    else Refused(s.games[s.connGame[conn].game], s.connGame[conn].idx, handIndex)
  }

  predicate Accepts(s: State, conn: u32, handIndex: nat) {
    && Seated(s, conn) && WhyRefused(s, conn, handIndex).None?
    && var g := s.games[s.connGame[conn].game];
       IndexOther(g.seats, g.seats[s.connGame[conn].idx].id).Some?
  }

  predicate HasOpponent(seats: seq<Seat>, me: nat)
    requires me < |seats|
  {
    |seats| > 1 ==> IndexOther(seats, seats[me].id).Some?
  }

  /** What a call relies on: its connection finds its seat, and an accepted card an opponent. */
  predicate CallFinds(s: State, conn: u32) {
    conn in s.connGame ==>
      Seated(s, conn) && HasOpponent(s.games[s.connGame[conn].game].seats, s.connGame[conn].idx)
  }

  function DoPlay(s: State, conn: u32, handIndex: nat, target: u32): State {
    if !Accepts(s, conn, handIndex) then s
    else
      var p := s.connGame[conn];
      var g := s.games[p.game];
      s.(games := s.games[p.game := Play(g, p.idx, handIndex, Victim(g, p.idx, target))])
  }

  predicate Passes(s: State, conn: u32) {
    Seated(s, conn) && MayPass(s.games[s.connGame[conn].game], s.connGame[conn].idx)
  }

  function DoEndTurn(s: State, conn: u32): State {
    if !Passes(s, conn) then s
    else
      var p := s.connGame[conn];
      s.(games := s.games[p.game := Pass(s.games[p.game], p.idx)])
  }

  function Apply(s: State, e: Event): State {
    match e
    case Start(conn, hand, pick) => DoStart(s, conn, hand, pick)
    case PlayCard(conn, handIndex, target) => DoPlay(s, conn, handIndex, target)
    case EndTurn(conn) => DoEndTurn(s, conn)
  }

  function RunFrom(s: State, es: seq<Event>): State {
    if es == [] then s else Apply(RunFrom(s, es[..|es| - 1]), es[|es| - 1])
  }

  function Run(es: seq<Event>): State {
    RunFrom(EMPTY, es)
  }

  /** No id counter has gone round. */
  predicate Unwrapped(s: State) {
    s.nextPlayer <= TWO_32 && s.nextGame <= TWO_32
  }

  // ----- What every reachable state satisfies -----

  ghost predicate GameSound(gid: u32, g: Game, nextPlayer: nat, nextGame: nat) {
    g.id == gid && 0 < gid < nextGame && Sound(g) && IdsBelow(g, nextPlayer)
  }

  ghost predicate GamesSound(games: map<u32, Game>, nextPlayer: nat, nextGame: nat) {
    forall g <- games :: GameSound(g, games[g], nextPlayer, nextGame)
  }

  predicate IdsBelow(g: Game, bound: nat) {
    forall i :: 0 <= i < |g.seats| ==> g.seats[i].id < bound
  }

  predicate LeadsHome(games: map<u32, Game>, p: Place, c: u32) {
    p.game in games && p.idx < |games[p.game].seats| && games[p.game].seats[p.idx].conn == c
  }

  /** Every connection's entry leads to the seat that bears its name. */
  predicate EntriesLeadHome(games: map<u32, Game>, connGame: map<u32, Place>) {
    forall c <- connGame :: LeadsHome(games, connGame[c], c)
  }

  predicate SeatsKnown(gid: u32, seats: seq<Seat>, connGame: map<u32, Place>) {
    forall i: nat :: i < |seats| ==> seats[i].conn in connGame && connGame[seats[i].conn] == Place(gid, i)
  }

  /** Every seat is the one its connection's entry leads to. */
  predicate SeatsAreKnown(games: map<u32, Game>, connGame: map<u32, Place>) {
    forall g <- games :: SeatsKnown(g, games[g].seats, connGame)
  }

  predicate OneWaits(games: map<u32, Game>) {
    forall g, h :: g in games && h in games && IsWaiting(games[g]) && IsWaiting(games[h]) ==> g == h
  }

  ghost predicate Matched(s: State) {
    && s.nextPlayer > 0 && s.nextGame > 0
    && GamesSound(s.games, s.nextPlayer, s.nextGame)
    && EntriesLeadHome(s.games, s.connGame)
    && SeatsAreKnown(s.games, s.connGame)
    && OneWaits(s.games)
  }

  /** The same people sit in the same places. */
  predicate SameSeats(g: Game, h: Game) {
    g.id == h.id && SamePeople(g.seats, h.seats)
  }

  lemma PutSound(games: map<u32, Game>, gid: u32, h: Game, np: nat, ng: nat, np1: nat, ng1: nat)
    requires GamesSound(games, np, ng) && np <= np1 && ng <= ng1 && GameSound(gid, h, np1, ng1)
    ensures GamesSound(games[gid := h], np1, ng1)
  {
    var after := games[gid := h];
    forall g <- after ensures GameSound(g, after[g], np1, ng1) {
      if g != gid {
        assert GameSound(g, games[g], np, ng);
      }
    }
  }

  lemma PutKnown(games: map<u32, Game>, connGame: map<u32, Place>, gid: u32, h: Game)
    requires gid in games && EntriesLeadHome(games, connGame) && SeatsAreKnown(games, connGame)
    requires SameSeats(games[gid], h)
    ensures EntriesLeadHome(games[gid := h], connGame) && SeatsAreKnown(games[gid := h], connGame)
  {
    var after := games[gid := h];
    forall c <- connGame ensures LeadsHome(after, connGame[c], c) {
      assert LeadsHome(games, connGame[c], c);
    }
    forall g <- after ensures SeatsKnown(g, after[g].seats, connGame) {
      assert SeatsKnown(g, games[g].seats, connGame);
    }
  }

  function SeatsOf(games: map<u32, Game>, gid: u32): seq<Seat> {
    if gid in games then games[gid].seats else []
  }

  /** The seats before, and one more at the end for the newcomer. */
  predicate OneMore(before: seq<Seat>, after: seq<Seat>, conn: u32) {
    && |after| == |before| + 1 && after[|before|].conn == conn
    && forall i :: 0 <= i < |before| ==> after[i].conn == before[i].conn
  }

  lemma SeatKnown(games: map<u32, Game>, connGame: map<u32, Place>, gid: u32, h: Game, conn: u32)
    requires EntriesLeadHome(games, connGame) && SeatsAreKnown(games, connGame) && conn !in connGame
    requires OneMore(SeatsOf(games, gid), h.seats, conn)
    ensures EntriesLeadHome(games[gid := h], connGame[conn := Place(gid, |h.seats| - 1)])
    ensures SeatsAreKnown(games[gid := h], connGame[conn := Place(gid, |h.seats| - 1)])
  {
    var after := games[gid := h];
    var entries := connGame[conn := Place(gid, |h.seats| - 1)];
    forall c <- entries ensures LeadsHome(after, entries[c], c) {
      if c != conn {
        assert LeadsHome(games, connGame[c], c);
      }
    }
    forall g <- after ensures SeatsKnown(g, after[g].seats, entries) {
      assert g in games ==> SeatsKnown(g, games[g].seats, connGame);
    }
  }

  lemma PutWaits(games: map<u32, Game>, gid: u32, h: Game)
    requires OneWaits(games) && gid in games && (IsWaiting(h) ==> IsWaiting(games[gid]))
    ensures OneWaits(games[gid := h])
  {
  }

  lemma ReplaceKeepsMatched(s: State, gid: u32, h: Game, t: State)
    requires Matched(s) && gid in s.games && SameSeats(s.games[gid], h) && Sound(h)
    requires IsWaiting(h) ==> IsWaiting(s.games[gid])
    requires t == s.(games := s.games[gid := h])
    ensures Matched(t)
  {
    StillSound(s, gid, h);
    PutSound(s.games, gid, h, s.nextPlayer, s.nextGame, s.nextPlayer, s.nextGame);
    PutKnown(s.games, s.connGame, gid, h);
    PutWaits(s.games, gid, h);
  }

  lemma StillSound(s: State, gid: u32, h: Game)
    requires GamesSound(s.games, s.nextPlayer, s.nextGame) && gid in s.games && SameSeats(s.games[gid], h) && Sound(h)
    ensures GameSound(gid, h, s.nextPlayer, s.nextGame)
  {
    assert GameSound(gid, s.games[gid], s.nextPlayer, s.nextGame);
  }

  /** A seated connection's game is sound and the seat bears its name. */
  lemma SeatedSoundly(s: State, conn: u32)
    requires Matched(s) && conn in s.connGame
    ensures Seated(s, conn)
    ensures var p := s.connGame[conn];
      (Sound(s.games[p.game]) && s.games[p.game].id == p.game && s.games[p.game].seats[p.idx].conn == conn)
  {
    var p := s.connGame[conn];
    assert LeadsHome(s.games, p, conn);
    assert GameSound(p.game, s.games[p.game], s.nextPlayer, s.nextGame);
  }

  /** What an accepted card does to the games table: the opponent is hit, whoever was named. */
  lemma PlayTable(s: State, conn: u32, handIndex: nat, target: u32)
    requires Accepts(s, conn, handIndex)
    requires var g := s.games[s.connGame[conn].game]; |g.seats| == 2 && g.seats[0].id != g.seats[1].id
    ensures var p := s.connGame[conn]; var g := s.games[p.game];
      (p.idx < 2 && Refused(g, p.idx, handIndex).None?
       && DoPlay(s, conn, handIndex, target) == s.(games := s.games[p.game := Play(g, p.idx, handIndex, 1 - p.idx)]))
  {
    VictimIsOpponent(s.games[s.connGame[conn].game], s.connGame[conn].idx, target);
  }

  lemma AcceptedIsFair(g: Game, me: nat, k: nat)
    requires Sound(g) && me < |g.seats| && Refused(g, me, k).None?
    ensures Fair(g) && |g.seats| == 2 && g.seats[0].id != g.seats[1].id
  {
  }

  lemma PlayInPlace(s: State, conn: u32, handIndex: nat, target: u32)
    requires Matched(s) && Accepts(s, conn, handIndex)
    ensures var p := s.connGame[conn]; var g := s.games[p.game];
      (Fair(g) && p.idx < 2 && Refused(g, p.idx, handIndex).None?
       && DoPlay(s, conn, handIndex, target) == s.(games := s.games[p.game := Play(g, p.idx, handIndex, 1 - p.idx)]))
  {
    SeatedSoundly(s, conn);
    AcceptedIsFair(s.games[s.connGame[conn].game], s.connGame[conn].idx, handIndex);
    PlayTable(s, conn, handIndex, target);
  }

  lemma PlayIsSound(g: Game, me: nat, k: nat)
    requires Sound(g) && Fair(g) && me < 2 && Refused(g, me, k).None?
    ensures var h := Play(g, me, k, 1 - me); Sound(h) && SameSeats(g, h) && !IsWaiting(h)
  {
    var h := Play(g, me, k, 1 - me);
    assert SameSeats(g, h);
    assert Fair(h) by {
      PlayLaw(g, me, k);
    }
    forall i | 0 <= i < |h.seats| ensures h.seats[i].id != 0 {
      assert g.seats[i].id != 0;
    }
  }

  lemma PlayKeepsMatched(s: State, conn: u32, handIndex: nat, target: u32)
    requires Matched(s)
    ensures Matched(DoPlay(s, conn, handIndex, target))
  {
    if Accepts(s, conn, handIndex) {
      PlayInPlace(s, conn, handIndex, target);
      var p := s.connGame[conn];
      var g := s.games[p.game];
      var h := Play(g, p.idx, handIndex, 1 - p.idx);
      SeatedSoundly(s, conn);
      PlayIsSound(g, p.idx, handIndex);
      ReplaceKeepsMatched(s, p.game, h, DoPlay(s, conn, handIndex, target));
    }
  }

  lemma EndTurnKeepsMatched(s: State, conn: u32)
    requires Matched(s)
    ensures Matched(DoEndTurn(s, conn))
  {
    if Passes(s, conn) {
      SeatedSoundly(s, conn);
      var p := s.connGame[conn];
      PassIsFair(s.games[p.game], p.idx);
      ReplaceKeepsMatched(s, p.game, Pass(s.games[p.game], p.idx), DoEndTurn(s, conn));
    }
  }

  lemma NewcomerHasNoSeat(s: State, conn: u32)
    requires Matched(s) && !InGame(s, conn)
    ensures conn !in s.connGame && forall g <- s.games :: !HasConn(s.games[g], conn)
  {
    assert conn in s.connGame ==> LeadsHome(s.games, s.connGame[conn], conn);
    forall g <- s.games ensures !HasConn(s.games[g], conn) {
      assert SeatsKnown(g, s.games[g].seats, s.connGame);
    }
  }

  lemma NoSuchGameYet(s: State)
    requires Matched(s) && s.nextGame < TWO_32
    ensures s.nextGame % TWO_32 == s.nextGame && s.nextGame !in s.games
  {
    forall g <- s.games ensures g < s.nextGame {
      assert GameSound(g, s.games[g], s.nextPlayer, s.nextGame);
    }
  }

  lemma OpenedGame(s: State, conn: u32, hand: seq<Card>)
    requires s.nextPlayer < TWO_32 && s.nextGame < TWO_32 && s.nextPlayer > 0
    ensures OpenGame(s, conn, hand) == State(
      s.games[s.nextGame := NewGame(s.nextGame, conn, s.nextPlayer, hand)],
      s.connGame[conn := Place(s.nextGame, 0)], s.nextPlayer + 1, s.nextGame + 1)
  {
    var g := NewGame(s.nextGame, conn, s.nextPlayer, hand);
    assert g.seats[0].conn == conn;
    assert SitDown(g, conn, s.nextPlayer, hand) == (g, 0);
  }

  lemma OpenKeepsMatched(s: State, conn: u32, hand: seq<Card>)
    requires Matched(s) && !InGame(s, conn) && IsDeal(hand) && NobodyWaits(s)
    requires Unwrapped(OpenGame(s, conn, hand))
    ensures Matched(OpenGame(s, conn, hand))
  {
    NewcomerHasNoSeat(s, conn);
    NoSuchGameYet(s);
    OpenedGame(s, conn, hand);
    var gid := s.nextGame;
    var g := NewGame(gid, conn, s.nextPlayer, hand);
    assert Fresh(g);
    PutSound(s.games, gid, g, s.nextPlayer, s.nextGame, s.nextPlayer + 1, s.nextGame + 1);
    SeatKnown(s.games, s.connGame, gid, g, conn);
  }

  lemma WaitingIsFresh(s: State, gid: u32)
    requires Matched(s) && gid in s.games && IsWaiting(s.games[gid])
    ensures Fresh(s.games[gid]) && GameSound(gid, s.games[gid], s.nextPlayer, s.nextGame)
  {
    assert GameSound(gid, s.games[gid], s.nextPlayer, s.nextGame);
  }

  lemma JoinedGame(s: State, conn: u32, hand: seq<Card>, gid: u32)
    requires Matched(s) && !InGame(s, conn) && gid in s.games && IsWaiting(s.games[gid]) && s.nextPlayer < TWO_32
    ensures JoinWaiting(s, conn, hand, gid) == State(
      s.games[gid := AddPlayer(s.games[gid], conn, s.nextPlayer, hand)],
      s.connGame[conn := Place(gid, 1)], s.nextPlayer + 1, s.nextGame)
  {
    NewcomerHasNoSeat(s, conn);
    WaitingIsFresh(s, gid);
    JoinedSeat(s.games[gid], conn, s.nextPlayer, hand);
  }

  lemma JoinedSeat(g: Game, conn: u32, player: u32, hand: seq<Card>)
    requires |g.seats| == 1 && !HasConn(g, conn)
    ensures SitDown(g, conn, player, hand) == (AddPlayer(g, conn, player, hand), 1)
  {
  }

  lemma SecondIsSound(gid: u32, g: Game, conn: u32, player: u32, nextGame: nat, hand: seq<Card>)
    requires GameSound(gid, g, player, nextGame) && Fresh(g) && player != 0 && IsDeal(hand)
    ensures GameSound(gid, AddPlayer(g, conn, player, hand), player + 1, nextGame)
  {
    SecondPlayerStartsFair(g, conn, player, hand);
  }

  lemma JoinKeepsMatched(s: State, conn: u32, hand: seq<Card>, gid: u32)
    requires Matched(s) && !InGame(s, conn) && IsDeal(hand) && gid in s.games && IsWaiting(s.games[gid])
    requires Unwrapped(JoinWaiting(s, conn, hand, gid))
    ensures Matched(JoinWaiting(s, conn, hand, gid))
  {
    NewcomerHasNoSeat(s, conn);
    WaitingIsFresh(s, gid);
    JoinedGame(s, conn, hand, gid);
    var h := AddPlayer(s.games[gid], conn, s.nextPlayer, hand);
    SecondIsSound(gid, s.games[gid], conn, s.nextPlayer, s.nextGame, hand);
    assert !IsWaiting(h);
    PutWaits(s.games, gid, h);
    PutSound(s.games, gid, h, s.nextPlayer, s.nextGame, s.nextPlayer + 1, s.nextGame);
    SeatKnown(s.games, s.connGame, gid, h, conn);
  }

  lemma StepKeepsMatched(s: State, e: Event)
    requires Matched(s) && Unwrapped(Apply(s, e))
    ensures Matched(Apply(s, e))
  {
    match e
    case Start(conn, hand, pick) =>
      if IsDeal(hand) && !InGame(s, conn) {
        if pick in s.games && IsWaiting(s.games[pick]) {
          JoinKeepsMatched(s, conn, hand, pick);
        } else if NobodyWaits(s) {
          OpenKeepsMatched(s, conn, hand);
        }
      }
    case PlayCard(conn, handIndex, target) => PlayKeepsMatched(s, conn, handIndex, target);
    case EndTurn(conn) => EndTurnKeepsMatched(s, conn);
  }

  lemma CountersOnlyGrow(s: State, e: Event)
    ensures s.nextPlayer <= Apply(s, e).nextPlayer && s.nextGame <= Apply(s, e).nextGame
  {
  }

  lemma {:induction false} MatchedOnward(s: State, es: seq<Event>)
    requires Matched(s) && Unwrapped(RunFrom(s, es))
    ensures Matched(RunFrom(s, es)) && Unwrapped(s)
  {
    if es != [] {
      var before := RunFrom(s, es[..|es| - 1]);
      CountersOnlyGrow(before, es[|es| - 1]);
      MatchedOnward(s, es[..|es| - 1]);
      StepKeepsMatched(before, es[|es| - 1]);
    }
  }

  /** Until a counter goes round: entries and seats mirror each other, so no lookup can fail;
      every game is sound; and at most one game is waiting, so it does not matter which one
      the scan comes upon first. */
  lemma MatchedInEveryRun(es: seq<Event>)
    requires Unwrapped(Run(es))
    ensures Matched(Run(es))
  {
    MatchedOnward(EMPTY, es);
  }
}
