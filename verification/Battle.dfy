/** One frame-synchronised battle: delayed inputs, the deterministic tick, the snapshot ring and
    resync (crates/grimoire-battle-svc/src/main.rs). Positions are exact reals. */
module BattleModel {
  import opened Common

  const INPUT_DELAY_FRAMES := 2
  const SNAPSHOT_RING := 30
  const FRAME_RATE := 20.0
  const SPEED := 8.0
  const FIELD := 100.0
  const EPSILON := 0.000001
  /** Distance covered by one applied input. */
  const STRIDE := SPEED * (1.0 / FRAME_RATE)
  const U64_MAX := 0xFFFF_FFFF_FFFF_FFFF

  type u64 = n: int | 0 <= n <= U64_MAX

  /** A queued direction. Its Euclidean length travels with it, since reals have no square root. */
  datatype RawMove = RawMove(player: u32, dx: real, dy: real, norm: real)
  type Move = m: RawMove | m.norm >= 0.0 && m.norm * m.norm == m.dx * m.dx + m.dy * m.dy
    witness RawMove(0, 0.0, 0.0, 0.0)

  datatype Pos = Pos(x: real, y: real)
  datatype Player = Player(conn: u32, pos: Pos)
  datatype Snapshot = Snapshot(frame: nat, players: map<u32, Pos>)

  datatype State = State(
    frame: nat,
    players: map<u32, Player>,
    pending: map<nat, seq<Move>>,
    ring: seq<Snapshot>)

  datatype Event = Join(player: u32, conn: u32) | Leave(player: u32) | Input(move: Move, frame: u64) | Tick

  const EMPTY := State(0, map[], map[], [])

  // ----- What each operation does -----

  function Clamp(v: real): real {
    if v < 0.0 then 0.0 else if v > FIELD then FIELD else v
  }

  function Moved(p: Pos, m: Move): Pos {
    if m.norm > EPSILON
    then Pos(Clamp(p.x + (m.dx / m.norm) * STRIDE), Clamp(p.y + (m.dy / m.norm) * STRIDE))
    else p
  }

  function ApplyMove(ps: map<u32, Player>, m: Move): map<u32, Player> {
    if m.player in ps then ps[m.player := ps[m.player].(pos := Moved(ps[m.player].pos, m))] else ps
  }

  function ApplyMoves(ps: map<u32, Player>, ms: seq<Move>): map<u32, Player> {
    if ms == [] then ps else ApplyMoves(ApplyMove(ps, ms[0]), ms[1..])
  }

  function Slot(s: State, t: nat): seq<Move> {
    if t in s.pending then s.pending[t] else []
  }

  /** The frame an input is queued for. */
  function Target(clientFrame: u64, serverFrame: nat): nat {
    var wanted := if clientFrame > U64_MAX - INPUT_DELAY_FRAMES then U64_MAX else clientFrame + INPUT_DELAY_FRAMES;
    if wanted > serverFrame then wanted else serverFrame + 1
  }

  function Without(ms: seq<Move>, player: u32): seq<Move> {
    if ms == [] then []
    else if ms[0].player == player then Without(ms[1..], player)
    else [ms[0]] + Without(ms[1..], player)
  }

  function Positions(ps: map<u32, Player>): map<u32, Pos> {
    map id | id in ps :: ps[id].pos
  }

  /** Push at the back; when that makes the ring too long, drop one at the front. */
  function PushRing(ring: seq<Snapshot>, x: Snapshot): seq<Snapshot> {
    var r := ring + [x];
    if |r| > SNAPSHOT_RING then r[1..] else r
  }

  function AddPlayer(s: State, player: u32, conn: u32): State {
    var x := if |s.players| == 0 then 25.0 else 75.0;
    s.(players := s.players[player := Player(conn, Pos(x, 50.0))])
  }

  function RemovePlayer(s: State, player: u32): State {
    s.(players := s.players - {player}, pending := map t | t in s.pending :: Without(s.pending[t], player))
  }

  function Enqueue(s: State, m: Move, clientFrame: u64): State {
    var t := Target(clientFrame, s.frame);
    s.(pending := s.pending[t := Slot(s, t) + [m]])
  }

  function TickFrame(s: State): State {
    var ps := ApplyMoves(s.players, Slot(s, s.frame));
    State(s.frame + 1, ps, s.pending - {s.frame}, PushRing(s.ring, Snapshot(s.frame + 1, Positions(ps))))
  }

  /** What is broadcast to every member. */
  function CurrentSnapshot(s: State): Snapshot {
    Snapshot(s.frame, Positions(s.players))
  }

  function After(ring: seq<Snapshot>, last: u64): seq<Snapshot> {
    if ring == [] then []
    else if ring[0].frame > last then [ring[0]] + After(ring[1..], last)
    else After(ring[1..], last)
  }

  function Apply(s: State, e: Event): State {
    match e
    case Join(p, c) => AddPlayer(s, p, c)
    case Leave(p) => RemovePlayer(s, p)
    case Input(m, f) => Enqueue(s, m, f)
    case Tick => TickFrame(s)
  }

  function RunFrom(s: State, es: seq<Event>): State
    decreases |es|
  {
    if es == [] then s else Apply(RunFrom(s, es[..|es| - 1]), es[|es| - 1])
  }

  function Run(es: seq<Event>): State {
    RunFrom(EMPTY, es)
  }

  // ----- The operations in plain numbers -----

  function Max(a: int, b: int): int {
    if a > b then a else b
  }

  function Min(a: int, b: int): int {
    if a < b then a else b
  }

  /** An input stamped with frame f that arrives at server frame n is queued two frames after its stamp,
      as far as 64 bits go, but never before the next frame. */
  lemma SlotOfAnInput(f: u64, n: nat)
    ensures Target(f, n) == Max(Min(f + 2, 0xFFFF_FFFF_FFFF_FFFF), n + 1)
  {
  }

  /** Where a coordinate ends that is pushed 0.4 units along its share of a direction of this length. */
  predicate Lands(q: real, at: real, d: real, length: real) {
    && 0.0 <= q <= 100.0
    && (|| (q - at) * length == 0.4 * d
        || (q == 0.0 && (0.0 - at) * length > 0.4 * d)
        || (q == 100.0 && (100.0 - at) * length < 0.4 * d))
  }

  lemma CoordinateLands(at: real, d: real, length: real)
    requires length > 0.0
    ensures Lands(Clamp(at + (d / length) * STRIDE), at, d, length)
  {
    var u := d / length;
    var step := u * STRIDE;
    assert u * length == d;
    assert step * length == 0.4 * d;
    SignOfProduct(at + step, length);
    SignOfProduct(100.0 - (at + step), length);
  }

  lemma SignOfProduct(a: real, b: real)
    requires b > 0.0
    ensures a < 0.0 <==> a * b < 0.0
  {
  }

  lemma LandsX(p: Pos, m: Move)
    requires m.norm > EPSILON
    ensures Lands(Moved(p, m).x, p.x, m.dx, m.norm)
  {
    CoordinateLands(p.x, m.dx, m.norm);
    assert Moved(p, m).x == Clamp(p.x + (m.dx / m.norm) * STRIDE);
  }

  lemma LandsY(p: Pos, m: Move)
    requires m.norm > EPSILON
    ensures Lands(Moved(p, m).y, p.y, m.dy, m.norm)
  {
    CoordinateLands(p.y, m.dy, m.norm);
    assert Moved(p, m).y == Clamp(p.y + (m.dy / m.norm) * STRIDE);
  }

  /** An applied input moves a player 0.4 units in its direction, stopping at the edges of the field;
      a direction no longer than a millionth moves nobody. */
  lemma MovesExactly(p: Pos, m: Move)
    ensures m.norm <= 0.000001 ==> Moved(p, m) == p
    ensures m.norm > 0.000001 ==> Lands(Moved(p, m).x, p.x, m.dx, m.norm) && Lands(Moved(p, m).y, p.y, m.dy, m.norm)
  {
    if m.norm > EPSILON {
      LandsX(p, m);
      LandsY(p, m);
    } else {
      assert Moved(p, m) == p;
    }
  }

  ghost predicate LeavesLater(es: seq<Event>, j: nat, p: u32) {
    exists k :: j < k < |es| && es[k] == Leave(p)
  }

  /** A player takes part exactly if it has joined at some time and not left since. */
  lemma {:induction false} WhoPlays(es: seq<Event>, p: u32)
    ensures p in Run(es).players
            <==> exists j :: 0 <= j < |es| && es[j].Join? && es[j].player == p && !LeavesLater(es, j, p)
    decreases |es|
  {
    if es != [] {
      var pre, e := es[..|es| - 1], es[|es| - 1];
      WhoPlays(pre, p);
      ApplyKeepsMembers(Run(pre), e, p);
      forall j: nat | j < |pre| ensures LeavesLater(es, j, p) <==> LeavesLater(pre, j, p) || e == Leave(p) {
        if LeavesLater(pre, j, p) {
          var k :| j < k < |pre| && pre[k] == Leave(p);
          assert es[k] == Leave(p);
        }
        if e == Leave(p) { assert es[|pre|] == Leave(p); }
      }
      assert !LeavesLater(es, |pre|, p);
      if exists j :: 0 <= j < |pre| && pre[j].Join? && pre[j].player == p && !LeavesLater(pre, j, p) {
        var j :| 0 <= j < |pre| && pre[j].Join? && pre[j].player == p && !LeavesLater(pre, j, p);
        assert es[j] == pre[j];
      }
    }
  }

  lemma ApplyKeepsMembers(s: State, e: Event, p: u32)
    ensures p in Apply(s, e).players
            <==> (e.Join? && e.player == p) || (p in s.players && e != Leave(p))
  {
    if e.Tick? { TickIsPlayerwise(s.players, Slot(s, s.frame), p); }
  }

  /** Only a tick moves a player: along the inputs of its own that are in the slot, in their order. */
  lemma WhatMovesAPlayer(s: State, e: Event, p: u32)
    requires p in s.players && e != Leave(p) && (e.Join? ==> e.player != p)
    ensures var t := Apply(s, e);
            && p in t.players && t.players[p].conn == s.players[p].conn
            && t.players[p].pos
               == if e.Tick? && s.frame in s.pending then Walk(s.players[p].pos, Own(s.pending[s.frame], p))
                  else s.players[p].pos
  {
    if e.Tick? { TickIsPlayerwise(s.players, Slot(s, s.frame), p); }
  }

  // ----- Every input is consumed exactly once, by the tick of its target frame -----

  function Ticks(es: seq<Event>): nat
    decreases |es|
  {
    if es == [] then 0 else Ticks(es[..|es| - 1]) + if es[|es| - 1].Tick? then 1 else 0
  }

  lemma {:induction false} FrameCountsTicks(es: seq<Event>)
    ensures Run(es).frame == Ticks(es)
    decreases |es|
  {
    if es != [] { FrameCountsTicks(es[..|es| - 1]); }
  }

  predicate IsInput(es: seq<Event>, i: nat) {
    i < |es| && es[i].Input?
  }

  function TargetOf(es: seq<Event>, i: nat): nat
    requires IsInput(es, i)
  {
    Target(es[i].frame, Ticks(es[..i]))
  }

  ghost predicate LeftSince(es: seq<Event>, i: nat)
    requires IsInput(es, i)
  {
    exists j :: i < j < |es| && es[j] == Leave(es[i].move.player)
  }

  /** Input i is to be consumed at frame t: that is its target, and its player has not left since. */
  ghost predicate Owed(es: seq<Event>, i: nat, t: nat) {
    IsInput(es, i) && TargetOf(es, i) == t && !LeftSince(es, i)
  }

  /** The moves owed at frame t among the first k events, in order of arrival. */
  ghost function OwedMoves(es: seq<Event>, t: nat, k: nat): seq<Move>
    requires k <= |es|
  {
    if k == 0 then [] else OwedMoves(es, t, k - 1) + OwedMove(es, t, k - 1)
  }

  ghost function OwedMove(es: seq<Event>, t: nat, i: nat): seq<Move> {
    if Owed(es, i, t) then [es[i].move] else []
  }

  lemma OwedAfterOther(pre: seq<Event>, e: Event, i: nat, t: nat)
    requires i < |pre|
    ensures Owed(pre + [e], i, t) <==> Owed(pre, i, t) && e != Leave(pre[i].move.player)
  {
    var es := pre + [e];
    assert es[..i] == pre[..i];
    if IsInput(pre, i) {
      if LeftSince(pre, i) {
        var j :| i < j < |pre| && pre[j] == Leave(pre[i].move.player);
        assert es[j] == pre[j];
      }
      if LeftSince(es, i) {
        var j :| i < j < |es| && es[j] == Leave(es[i].move.player);
        assert j == |pre| || es[j] == pre[j];
      }
      if e == Leave(pre[i].move.player) { assert es[|pre|] == e; }
    }
  }

  lemma {:induction false} WithoutConcat(a: seq<Move>, b: seq<Move>, p: u32)
    ensures Without(a + b, p) == Without(a, p) + Without(b, p)
    decreases |a|
  {
    if a == [] {
      assert a + b == b;
    } else {
      assert (a + b)[1..] == a[1..] + b;
      WithoutConcat(a[1..], b, p);
    }
  }

  lemma OwedMoveGrows(pre: seq<Event>, e: Event, t: nat, i: nat)
    requires i < |pre|
    ensures OwedMove(pre + [e], t, i)
            == if e.Leave? then Without(OwedMove(pre, t, i), e.player) else OwedMove(pre, t, i)
  {
    OwedAfterOther(pre, e, i, t);
  }

  lemma {:induction false} OwedMovesGrow(pre: seq<Event>, e: Event, t: nat, k: nat)
    requires k <= |pre|
    ensures OwedMoves(pre + [e], t, k)
            == if e.Leave? then Without(OwedMoves(pre, t, k), e.player) else OwedMoves(pre, t, k)
    decreases k
  {
    if k > 0 {
      OwedMovesGrow(pre, e, t, k - 1);
      OwedMoveGrows(pre, e, t, k - 1);
      if e.Leave? {
        WithoutConcat(OwedMoves(pre, t, k - 1), OwedMove(pre, t, k - 1), e.player);
      }
    }
  }

  lemma NewestInputOwed(pre: seq<Event>, e: Event, t: nat)
    ensures OwedMove(pre + [e], t, |pre|)
            == if e.Input? && Target(e.frame, Ticks(pre)) == t then [e.move] else []
  {
    assert (pre + [e])[..|pre|] == pre;
  }

  lemma SlotAfter(s: State, e: Event, t: nat)
    ensures Slot(Apply(s, e), t)
            == match e
               case Join(_, _) => Slot(s, t)
               case Leave(p) => Without(Slot(s, t), p)
               case Input(m, f) => if t == Target(f, s.frame) then Slot(s, t) + [m] else Slot(s, t)
               case Tick => if t == s.frame then [] else Slot(s, t)
    ensures t in Apply(s, e).pending ==> t in s.pending || t > s.frame
  {}

  /** In every run, each slot not yet reached holds exactly the moves owed at its frame, in order of
      arrival, and no slot of a past frame exists. */
  lemma {:induction false} SlotsHoldWhatIsOwed(es: seq<Event>, t: nat)
    ensures t >= Ticks(es) ==> Slot(Run(es), t) == OwedMoves(es, t, |es|)
    ensures t < Ticks(es) ==> t !in Run(es).pending
    decreases |es|
  {
    if es != [] {
      var pre, e := es[..|es| - 1], es[|es| - 1];
      assert es == pre + [e];
      SlotsHoldWhatIsOwed(pre, t);
      FrameCountsTicks(pre);
      SlotAfter(Run(pre), e, t);
      if t >= Ticks(es) {
        OwedMovesGrow(pre, e, t, |pre|);
        NewestInputOwed(pre, e, t);
      }
    }
  }

  /** The moves the tick at event j applies. */
  function ConsumedBy(es: seq<Event>, j: nat): seq<Move>
    requires j < |es|
  {
    var s := Run(es[..j]);
    Slot(s, s.frame)
  }

  lemma ConsumedInItsSlot(es: seq<Event>, i: nat, j: nat)
    requires IsInput(es, i) && j < |es| && es[j].Tick?
    ensures ConsumedBy(es, j) == OwedMoves(es[..j], Ticks(es[..j]), j)
    ensures Owed(es[..j], i, Ticks(es[..j]))
            <==> Ticks(es[..j]) == TargetOf(es, i) && !exists k :: i < k < j && es[k] == Leave(es[i].move.player)
  {
    var pre := es[..j];
    FrameCountsTicks(pre);
    SlotsHoldWhatIsOwed(pre, Ticks(pre));
    if i < j {
      assert pre[..i] == es[..i];
      if exists k :: i < k < j && es[k] == Leave(es[i].move.player) {
        var k :| i < k < j && es[k] == Leave(es[i].move.player);
        assert pre[k] == es[k];
      }
    } else {
      TicksGrow(es, j, i);
    }
  }

  /** The tick at event j consumes exactly the owed moves of the frame it starts from; and input i is
      among them just when that frame is the slot of its stamp and its arrival, and its player did not
      leave in between. */
  lemma ConsumedAtTarget(es: seq<Event>, i: nat, j: nat)
    requires IsInput(es, i) && j < |es| && es[j].Tick?
    ensures ConsumedBy(es, j) == OwedMoves(es[..j], Ticks(es[..j]), j)
    ensures Owed(es[..j], i, Ticks(es[..j]))
            <==> Ticks(es[..j]) == Max(Min(es[i].frame + 2, 0xFFFF_FFFF_FFFF_FFFF), Ticks(es[..i]) + 1)
                 && !exists k :: i < k < j && es[k] == Leave(es[i].move.player)
  {
    ConsumedInItsSlot(es, i, j);
    SlotOfAnInput(es[i].frame, Ticks(es[..i]));
  }

  lemma {:induction false} TicksGrow(es: seq<Event>, j: nat, i: nat)
    requires j <= i <= |es|
    ensures Ticks(es[..j]) <= Ticks(es[..i])
    ensures j < i && es[j].Tick? ==> Ticks(es[..j]) < Ticks(es[..i])
    decreases i
  {
    if j < i {
      assert es[..i][..i - 1] == es[..i - 1];
      TicksGrow(es, j, i - 1);
    }
  }

  /** No two ticks start from the same frame, so no input is consumed twice. */
  lemma OneTickPerFrame(es: seq<Event>, j: nat, k: nat)
    requires j < |es| && k < |es| && es[j].Tick? && es[k].Tick?
    requires Ticks(es[..j]) == Ticks(es[..k])
    ensures j == k
  {
    if j < k { TicksGrow(es, j, k); }
    if k < j { TicksGrow(es, k, j); }
  }

  ghost predicate Consumed(es: seq<Event>, i: nat) {
    exists j :: 0 <= j < |es| && es[j].Tick? && Owed(es[..j], i, Ticks(es[..j]))
  }

  ghost predicate Discarded(es: seq<Event>, i: nat)
    requires IsInput(es, i)
  {
    exists j :: i < j < |es| && es[j] == Leave(es[i].move.player) && Ticks(es[..j]) <= TargetOf(es, i)
  }

  ghost predicate StillPending(es: seq<Event>, i: nat)
    requires IsInput(es, i)
  {
    Ticks(es) <= TargetOf(es, i) && Owed(es, i, TargetOf(es, i))
  }

  lemma {:induction false} FrameWasReached(es: seq<Event>, t: nat) returns (j: nat)
    requires t < Ticks(es)
    ensures j < |es| && es[j].Tick? && Ticks(es[..j]) == t
    decreases |es|
  {
    var pre := es[..|es| - 1];
    if Ticks(pre) == t {
      j := |es| - 1;
    } else {
      j := FrameWasReached(pre, t);
      assert es[..j] == pre[..j];
    }
  }

  lemma EveryInputHasAFate(es: seq<Event>, i: nat)
    requires IsInput(es, i)
    ensures Consumed(es, i) || Discarded(es, i) || StillPending(es, i)
  {
    var t := TargetOf(es, i);
    assert es[..|es|] == es;
    if Ticks(es) > t && !Consumed(es, i) {
      var j := FrameWasReached(es, t);
      ConsumedInItsSlot(es, i, j);
      var k :| i < k < j && es[k] == Leave(es[i].move.player);
      TicksGrow(es, k, j);
    } else if LeftSince(es, i) {
      var k :| i < k < |es| && es[k] == Leave(es[i].move.player);
      TicksGrow(es, k, |es|);
    }
  }

  lemma ConsumedIsFinal(es: seq<Event>, i: nat)
    requires IsInput(es, i) && Consumed(es, i)
    ensures !Discarded(es, i) && !StillPending(es, i)
  {
    var j :| 0 <= j < |es| && es[j].Tick? && Owed(es[..j], i, Ticks(es[..j]));
    ConsumedInItsSlot(es, i, j);
    TicksGrow(es, j, |es|);
    assert es[..|es|] == es;
    if Discarded(es, i) {
      var k :| i < k < |es| && es[k] == Leave(es[i].move.player) && Ticks(es[..k]) <= TargetOf(es, i);
      if j < k { TicksGrow(es, j, k); }
    }
  }

  /** Conservation: every accepted input is consumed, discarded because its player left first, or still
      pending, and only one of the three. */
  lemma EveryInputHasOneFate(es: seq<Event>, i: nat)
    requires IsInput(es, i)
    ensures Consumed(es, i) <==> !Discarded(es, i) && !StillPending(es, i)
    ensures Discarded(es, i) <==> !Consumed(es, i) && !StillPending(es, i)
    ensures StillPending(es, i) <==> !Consumed(es, i) && !Discarded(es, i)
  {
    EveryInputHasAFate(es, i);
    if Consumed(es, i) { ConsumedIsFinal(es, i); }
  }

  // ----- Resync agrees with what was broadcast -----

  /** Everything broadcast in a run, oldest first. */
  function Broadcasts(es: seq<Event>): seq<Snapshot>
    decreases |es|
  {
    if es == [] then []
    else
      var before := Broadcasts(es[..|es| - 1]);
      if es[|es| - 1].Tick? then before + [CurrentSnapshot(Run(es))] else before
  }

  function LastFew(h: seq<Snapshot>): seq<Snapshot> {
    if |h| > SNAPSHOT_RING then h[|h| - SNAPSHOT_RING..] else h
  }

  ghost predicate Consecutive(ring: seq<Snapshot>, first: nat) {
    forall k :: 0 <= k < |ring| ==> ring[k].frame == first + k
  }

  /** Frame n is the n-th broadcast, and the ring is the end of the broadcast history. */
  lemma {:induction false} RingIsEndOfHistory(es: seq<Event>)
    ensures |Broadcasts(es)| == Run(es).frame
    ensures Consecutive(Broadcasts(es), 1)
    ensures Run(es).ring == LastFew(Broadcasts(es))
    decreases |es|
  {
    if es != [] {
      var pre := es[..|es| - 1];
      RingIsEndOfHistory(pre);
      if es[|es| - 1].Tick? {
        LastFewStep(Broadcasts(pre), CurrentSnapshot(Run(es)));
      }
    }
  }

  lemma LastFewStep(h: seq<Snapshot>, x: Snapshot)
    ensures PushRing(LastFew(h), x) == LastFew(h + [x])
  {}

  /** How many of `count` consecutive frames starting at `first` are not after `last`. */
  function Skipped(first: nat, count: nat, last: u64): nat {
    if last < first then 0 else if last - first + 1 <= count then last - first + 1 else count
  }

  lemma {:induction false} AfterConsecutive(ring: seq<Snapshot>, first: nat, last: u64)
    requires Consecutive(ring, first)
    ensures After(ring, last) == ring[Skipped(first, |ring|, last)..]
    decreases |ring|
  {
    if ring != [] {
      assert Consecutive(ring[1..], first + 1) by {
        forall k | 0 <= k < |ring[1..]| ensures ring[1..][k].frame == first + 1 + k {
          assert ring[1..][k] == ring[k + 1];
        }
      }
      AfterConsecutive(ring[1..], first + 1, last);
      assert ring == [ring[0]] + ring[1..];
    }
  }

  /** The first frame resync(last) answers with, when the battle is at frame n. */
  function ResyncFrom(n: nat, last: u64): nat {
    Max(Max(last + 1, n - 29), 1)
  }

  lemma SkipTwice(h: seq<Snapshot>, a: nat, b: nat)
    requires a <= |h| && b <= |h| - a
    ensures h[a..][b..] == h[a + b..]
  {}

  lemma SliceOfRing(h: seq<Snapshot>, last: u64)
    requires Consecutive(h, 1)
    ensures var from := ResyncFrom(|h|, last); After(LastFew(h), last) == if from <= |h| then h[from - 1..] else []
  {
    var skip := if |h| > SNAPSHOT_RING then |h| - SNAPSHOT_RING else 0;
    var ring := h[skip..];
    assert LastFew(h) == ring;
    AfterConsecutive(ring, skip + 1, last);
    SkipTwice(h, skip, Skipped(skip + 1, |ring|, last));
  }

  /** After any run at frame n, resync(last) is exactly the broadcasts of frames
      max(last + 1, n - 29, 1) to n; nothing when last >= n. */
  lemma ResyncIsHistorySlice(es: seq<Event>, last: u64)
    ensures var n := Run(es).frame; var from := ResyncFrom(n, last);
            && |Broadcasts(es)| == n
            && After(Run(es).ring, last) == (if from <= n then Broadcasts(es)[from - 1..] else [])
    ensures Consecutive(After(Run(es).ring, last), ResyncFrom(Run(es).frame, last))
    ensures last >= Run(es).frame ==> After(Run(es).ring, last) == []
  {
    RingIsEndOfHistory(es);
    SliceOfRing(Broadcasts(es), last);
  }

  // ----- The tick does not depend on how different players' inputs interleave -----

  function Own(ms: seq<Move>, p: u32): seq<Move> {
    if ms == [] then []
    else if ms[0].player == p then [ms[0]] + Own(ms[1..], p)
    else Own(ms[1..], p)
  }

  function Walk(at: Pos, ms: seq<Move>): Pos
    decreases |ms|
  {
    if ms == [] then at else Walk(Moved(at, ms[0]), ms[1..])
  }

  /** Each player ends where its own inputs, in order, take it from its start. */
  lemma {:induction false} TickIsPlayerwise(ps: map<u32, Player>, ms: seq<Move>, p: u32)
    ensures ApplyMoves(ps, ms).Keys == ps.Keys
    ensures p in ps ==> ApplyMoves(ps, ms)[p] == ps[p].(pos := Walk(ps[p].pos, Own(ms, p)))
    decreases |ms|
  {
    if ms != [] {
      TickIsPlayerwise(ApplyMove(ps, ms[0]), ms[1..], p);
      OwnStep(ms, p);
    }
  }

  lemma OwnStep(ms: seq<Move>, p: u32)
    requires ms != []
    ensures ms[0].player == p ==> Own(ms, p) != [] && Own(ms, p)[0] == ms[0] && Own(ms, p)[1..] == Own(ms[1..], p)
    ensures ms[0].player != p ==> Own(ms, p) == Own(ms[1..], p)
  {}

  lemma {:induction false} OwnConcat(a: seq<Move>, b: seq<Move>, p: u32)
    ensures Own(a + b, p) == Own(a, p) + Own(b, p)
    decreases |a|
  {
    if a == [] {
      assert a + b == b;
    } else {
      assert (a + b)[1..] == a[1..] + b && (a + b)[0] == a[0];
      OwnConcat(a[1..], b, p);
      if a[0].player == p {
        assert [a[0]] + Own(a[1..], p) + Own(b, p) == [a[0]] + (Own(a[1..], p) + Own(b, p));
      }
    }
  }

  lemma {:induction false} OwnWithout(ms: seq<Move>, gone: u32, p: u32)
    ensures Own(Without(ms, gone), p) == if p == gone then [] else Own(ms, p)
    decreases |ms|
  {
    if ms != [] {
      OwnWithout(ms[1..], gone, p);
      if ms[0].player != gone {
        assert Without(ms, gone)[1..] == Without(ms[1..], gone);
        OwnStep(Without(ms, gone), p);
      }
      OwnStep(ms, p);
    }
  }

  /** Everything but the other players' inputs. */
  predicate Concerns(e: Event, p: u32) {
    e.Input? ==> e.move.player == p
  }

  /** The run as player p sees it: its own inputs among all joins, leaves and ticks. */
  function Seen(es: seq<Event>, p: u32): seq<Event> {
    if es == [] then []
    else
      var earlier := Seen(es[..|es| - 1], p);
      if Concerns(es[|es| - 1], p) then earlier + [es[|es| - 1]] else earlier
  }

  predicate PositionFor(ps: map<u32, Pos>, qs: map<u32, Pos>, p: u32) {
    ps.Keys == qs.Keys && (p in ps ==> ps[p] == qs[p])
  }

  predicate PlayersFor(ps: map<u32, Player>, qs: map<u32, Player>, p: u32) {
    ps.Keys == qs.Keys && (p in ps ==> ps[p] == qs[p])
  }

  predicate SnapshotFor(x: Snapshot, y: Snapshot, p: u32) {
    x.frame == y.frame && PositionFor(x.players, y.players, p)
  }

  predicate RingFor(x: seq<Snapshot>, y: seq<Snapshot>, p: u32) {
    |x| == |y| && forall k :: 0 <= k < |x| ==> SnapshotFor(x[k], y[k], p)
  }

  ghost predicate SlotsFor(s: State, r: State, p: u32) {
    forall t: nat :: Own(Slot(s, t), p) == Own(Slot(r, t), p)
  }

  /** The two battles have the same members and treat player p alike. */
  ghost predicate SameFor(s: State, r: State, p: u32) {
    s.frame == r.frame && PlayersFor(s.players, r.players, p) && RingFor(s.ring, r.ring, p) && SlotsFor(s, r, p)
  }

  lemma SlotStepFor(s: State, r: State, e: Event, t: nat, p: u32)
    requires s.frame == r.frame && Own(Slot(s, t), p) == Own(Slot(r, t), p)
    ensures Own(Slot(Apply(s, e), t), p) == Own(Slot(Apply(r, e), t), p)
  {
    SlotAfter(s, e, t);
    SlotAfter(r, e, t);
    match e
    case Input(m, _) =>
      OwnConcat(Slot(s, t), [m], p);
      OwnConcat(Slot(r, t), [m], p);
    case Leave(gone) =>
      OwnWithout(Slot(s, t), gone, p);
      OwnWithout(Slot(r, t), gone, p);
    case _ =>
  }

  lemma TickFor(s: State, r: State, p: u32)
    requires s.frame == r.frame && PlayersFor(s.players, r.players, p) && RingFor(s.ring, r.ring, p)
    requires Own(Slot(s, s.frame), p) == Own(Slot(r, r.frame), p)
    ensures PlayersFor(TickFrame(s).players, TickFrame(r).players, p)
    ensures RingFor(TickFrame(s).ring, TickFrame(r).ring, p)
  {
    TickIsPlayerwise(s.players, Slot(s, s.frame), p);
    TickIsPlayerwise(r.players, Slot(r, r.frame), p);
    PushFor(s.ring, r.ring, TickFrame(s).ring[|TickFrame(s).ring| - 1], TickFrame(r).ring[|TickFrame(r).ring| - 1], p);
  }

  lemma PushFor(x: seq<Snapshot>, y: seq<Snapshot>, a: Snapshot, b: Snapshot, p: u32)
    requires RingFor(x, y, p) && SnapshotFor(a, b, p)
    ensures RingFor(PushRing(x, a), PushRing(y, b), p)
  {
    assert RingFor(x + [a], y + [b], p);
  }

  /** Battles the same for p stay so whatever happens next. */
  lemma SameForStep(s: State, r: State, e: Event, p: u32)
    requires SameFor(s, r, p)
    ensures SameFor(Apply(s, e), Apply(r, e), p)
  {
    forall t: nat ensures Own(Slot(Apply(s, e), t), p) == Own(Slot(Apply(r, e), t), p) {
      SlotStepFor(s, r, e, t, p);
    }
    if e.Tick? {
      TickFor(s, r, p);
    } else {
      MembersFor(s, r, e, p);
    }
  }

  lemma MembersFor(s: State, r: State, e: Event, p: u32)
    requires !e.Tick? && PlayersFor(s.players, r.players, p)
    ensures PlayersFor(Apply(s, e).players, Apply(r, e).players, p)
    ensures Apply(s, e).ring == s.ring && Apply(r, e).ring == r.ring
  {
    assert |s.players.Keys| == |r.players.Keys|;
  }

  /** Another player's input changes nothing for p. */
  lemma ForeignInput(s: State, r: State, e: Event, p: u32)
    requires SameFor(s, r, p) && !Concerns(e, p)
    ensures SameFor(Apply(s, e), r, p)
  {
    forall t: nat ensures Own(Slot(Apply(s, e), t), p) == Own(Slot(r, t), p) {
      SlotAfter(s, e, t);
      OwnConcat(Slot(s, t), [e.move], p);
      assert Own([e.move], p) == Own([], p);
    }
  }

  lemma RunOneMore(s: State, es: seq<Event>, e: Event)
    ensures RunFrom(s, es + [e]) == Apply(RunFrom(s, es), e)
  {
    assert (es + [e])[..|es|] == es;
  }

  /** A player cannot tell the run from one in which nobody else sends any input. */
  lemma {:induction false} PlayersSeeOnlyTheirOwn(s: State, es: seq<Event>, p: u32)
    ensures SameFor(RunFrom(s, es), RunFrom(s, Seen(es, p)), p)
    decreases |es|
  {
    if es != [] {
      var pre, e := es[..|es| - 1], es[|es| - 1];
      PlayersSeeOnlyTheirOwn(s, pre, p);
      if Concerns(e, p) {
        RunOneMore(s, Seen(pre, p), e);
        SameForStep(RunFrom(s, pre), RunFrom(s, Seen(pre, p)), e, p);
      } else {
        ForeignInput(RunFrom(s, pre), RunFrom(s, Seen(pre, p)), e, p);
      }
    }
  }

  lemma SameForEverybody(s: State, r: State)
    requires s.frame == r.frame
    requires forall p: u32 :: PlayersFor(s.players, r.players, p) && RingFor(s.ring, r.ring, p)
    ensures s.players == r.players && s.ring == r.ring
  {
    assert PlayersFor(s.players, r.players, 0) && RingFor(s.ring, r.ring, 0);
    forall k | 0 <= k < |s.ring| ensures s.ring[k] == r.ring[k] {
      assert SnapshotFor(s.ring[k], r.ring[k], 0);
      forall p | p in s.ring[k].players ensures s.ring[k].players[p] == r.ring[k].players[p] {
        assert RingFor(s.ring, r.ring, p);
      }
    }
    forall p | p in s.players ensures s.players[p] == r.players[p] {
      assert PlayersFor(s.players, r.players, p);
    }
  }

  lemma SeenAlike(s: State, xs: seq<Event>, ys: seq<Event>, p: u32)
    requires Seen(xs, p) == Seen(ys, p)
    ensures var a, b := RunFrom(s, xs), RunFrom(s, ys);
            a.frame == b.frame && PlayersFor(a.players, b.players, p) && RingFor(a.ring, b.ring, p)
  {
    PlayersSeeOnlyTheirOwn(s, xs, p);
    PlayersSeeOnlyTheirOwn(s, ys, p);
  }

  /** Two runs with the same joins, leaves and ticks, between which every player sends the same inputs
      in the same order, reach the same world with the same snapshots, however the players interleave. */
  lemma OnlyOwnOrderMatters(s: State, xs: seq<Event>, ys: seq<Event>)
    requires forall p: u32 :: Seen(xs, p) == Seen(ys, p)
    ensures var a, b := RunFrom(s, xs), RunFrom(s, ys);
            a.frame == b.frame && a.players == b.players && a.ring == b.ring
  {
    var a, b := RunFrom(s, xs), RunFrom(s, ys);
    forall p: u32 ensures a.frame == b.frame && PlayersFor(a.players, b.players, p) && RingFor(a.ring, b.ring, p) {
      SeenAlike(s, xs, ys, p);
    }
    assert PlayersFor(a.players, b.players, 0) && a.frame == b.frame by {
      SeenAlike(s, xs, ys, 0);
    }
    SameForEverybody(a, b);
  }

  const RIGHT: Move := RawMove(1, 1.0, 0.0, 1.0)
  const LEFT: Move := RawMove(1, -1.0, 0.0, 1.0)

  /** One player's own inputs do not commute: at the field's edge the clamp forgets. */
  lemma OwnInputsDoNotCommute()
    ensures var at := Pos(FIELD, 50.0);
            Walk(at, [RIGHT, LEFT]) == Pos(FIELD - STRIDE, 50.0) && Walk(at, [LEFT, RIGHT]) == at
  {
    var at, left := Pos(FIELD, 50.0), Pos(FIELD - STRIDE, 50.0);
    UnitMove(at, RIGHT);
    UnitMove(at, LEFT);
    UnitMove(left, RIGHT);
    WalkTwo(at, RIGHT, LEFT);
    WalkTwo(at, LEFT, RIGHT);
  }

  lemma UnitMove(at: Pos, m: Move)
    requires m.norm == 1.0
    ensures Moved(at, m) == Pos(Clamp(at.x + m.dx * STRIDE), Clamp(at.y + m.dy * STRIDE))
  {
    assert m.dx / 1.0 == m.dx && m.dy / 1.0 == m.dy;
  }

  lemma WalkTwo(at: Pos, m: Move, n: Move)
    ensures Walk(at, [m, n]) == Moved(Moved(at, m), n)
  {
    assert [m, n][1..] == [n];
    assert Walk(Moved(at, m), [n]) == Walk(Moved(Moved(at, m), n), [n][1..]);
  }

  // ----- Geometry -----

  predicate InField(p: Pos) {
    0.0 <= p.x <= 100.0 && 0.0 <= p.y <= 100.0
  }

  predicate AllInField(ps: map<u32, Player>) {
    forall p :: p in ps ==> InField(ps[p].pos)
  }

  lemma {:induction false} MovesStayInField(ps: map<u32, Player>, ms: seq<Move>)
    requires AllInField(ps)
    ensures AllInField(ApplyMoves(ps, ms))
    decreases |ms|
  {
    if ms != [] { MovesStayInField(ApplyMove(ps, ms[0]), ms[1..]); }
  }

  /** In every run every player stays in the field. */
  lemma {:induction false} PlayersStayInField(es: seq<Event>)
    ensures AllInField(Run(es).players)
    decreases |es|
  {
    if es != [] {
      var s := Run(es[..|es| - 1]);
      PlayersStayInField(es[..|es| - 1]);
      MovesStayInField(s.players, Slot(s, s.frame));
    }
  }

  lemma UnitDirection(u: real, v: real, n: real, dx: real, dy: real)
    requires n > 0.0 && n * n == dx * dx + dy * dy
    requires u * n == dx && v * n == dy
    ensures u * u + v * v == 1.0
  {
    var e := u * u + v * v - 1.0;
    SumOfSquaresScales(u, v, n);
    assert (e * n) * n == (u * n) * (u * n) + (v * n) * (v * n) - n * n;
    NoZeroFactor(e * n, n);
    NoZeroFactor(e, n);
  }

  lemma NoZeroFactor(a: real, b: real)
    requires b != 0.0 && a * b == 0.0
    ensures a == 0.0
  {}

  lemma SumOfSquaresScales(u: real, v: real, n: real)
    ensures (u * u + v * v) * (n * n) == (u * n) * (u * n) + (v * n) * (v * n)
  {}

  lemma ClampShortens(at: real, d: real)
    requires 0.0 <= at <= FIELD
    ensures var c := Clamp(at + d) - at; c * c <= d * d
  {
    ShorterSquares(Clamp(at + d) - at, d);
  }

  lemma ShorterSquares(c: real, d: real)
    requires 0.0 <= c <= d || d <= c <= 0.0
    ensures c * c <= d * d
  {
    if 0.0 <= c < d { SquareGrows(c, d); }
    if d < c <= 0.0 { SquareGrows(-c, -d); }
  }

  function Abs(d: real): real {
    if d < 0.0 then -d else d
  }

  /** One applied input moves a player by Euclidean distance at most 0.4. */
  lemma OneInputMovesAtMostAStride(p: Pos, m: Move)
    requires InField(p)
    ensures Distance2(p, Moved(p, m)) <= STRIDE * STRIDE && STRIDE == 0.4
    ensures Abs(Moved(p, m).x - p.x) <= STRIDE && Abs(Moved(p, m).y - p.y) <= STRIDE
  {
    if m.norm > EPSILON {
      var a, b := Stride(p, m);
      Shortened(p, Moved(p, m), a, b);
      StepBounds(p, Moved(p, m), a, b);
    }
  }

  /** The step an input asks for, before clamping. */
  lemma Stride(p: Pos, m: Move) returns (a: real, b: real)
    requires m.norm > EPSILON
    ensures Moved(p, m) == Pos(Clamp(p.x + a), Clamp(p.y + b)) && a * a + b * b == STRIDE * STRIDE
  {
    a, b := (m.dx / m.norm) * STRIDE, (m.dy / m.norm) * STRIDE;
    StrideLength(m, a, b);
  }

  lemma Shortened(p: Pos, q: Pos, a: real, b: real)
    requires InField(p) && q == Pos(Clamp(p.x + a), Clamp(p.y + b))
    ensures (q.x - p.x) * (q.x - p.x) <= a * a && (q.y - p.y) * (q.y - p.y) <= b * b
  {
    ClampShortens(p.x, a);
    ClampShortens(p.y, b);
  }

  lemma StepBounds(p: Pos, q: Pos, a: real, b: real)
    requires (q.x - p.x) * (q.x - p.x) <= a * a && (q.y - p.y) * (q.y - p.y) <= b * b
    requires a * a + b * b == STRIDE * STRIDE
    ensures Distance2(p, q) <= STRIDE * STRIDE
    ensures Abs(q.x - p.x) <= STRIDE && Abs(q.y - p.y) <= STRIDE
  {
    CombineAxes(q.x - p.x, q.y - p.y, a, b, STRIDE);
  }

  /** Squared Euclidean distance. */
  function Distance2(p: Pos, q: Pos): real {
    (q.x - p.x) * (q.x - p.x) + (q.y - p.y) * (q.y - p.y)
  }

  lemma StrideLength(m: Move, a: real, b: real)
    requires m.norm > 0.0 && a == (m.dx / m.norm) * STRIDE && b == (m.dy / m.norm) * STRIDE
    ensures a * a + b * b == STRIDE * STRIDE
  {
    var u, v := m.dx / m.norm, m.dy / m.norm;
    UnitDirection(u, v, m.norm, m.dx, m.dy);
    SumOfSquaresScales(u, v, STRIDE);
  }

  lemma CombineAxes(cx: real, cy: real, a: real, b: real, s: real)
    requires cx * cx <= a * a && cy * cy <= b * b && a * a + b * b == s * s && s >= 0.0
    ensures cx * cx + cy * cy <= s * s && Abs(cx) <= s && Abs(cy) <= s
  {
    SquareBound(cx, cy, s);
    SquareBound(cy, cx, s);
  }

  lemma SquareBound(a: real, c: real, b: real)
    requires b >= 0.0 && a * a + c * c <= b * b
    ensures Abs(a) <= b
  {
    assert c * c >= 0.0;
    assert Abs(a) * Abs(a) == a * a;
    if Abs(a) > b { SquareGrows(b, Abs(a)); }
  }

  lemma SquareGrows(b: real, d: real)
    requires 0.0 <= b < d
    ensures b * b < d * d
  {
    PositiveProduct(d - b, d + b);
    assert (d - b) * (d + b) == d * d - b * b;
  }

  lemma PositiveProduct(a: real, b: real)
    requires a > 0.0 && b > 0.0
    ensures a * b > 0.0
  {}

  /** k inputs in one tick move a player by at most 0.4 k along each axis. */
  lemma {:induction false} InputsMoveAtMostTheirStrides(p: Pos, ms: seq<Move>)
    requires InField(p)
    ensures InField(Walk(p, ms))
    ensures Abs(Walk(p, ms).x - p.x) <= STRIDE * |ms| as real
    ensures Abs(Walk(p, ms).y - p.y) <= STRIDE * |ms| as real
    decreases |ms|
  {
    if ms != [] {
      OneInputMovesAtMostAStride(p, ms[0]);
      InputsMoveAtMostTheirStrides(Moved(p, ms[0]), ms[1..]);
      assert |ms| as real == |ms[1..]| as real + 1.0;
      assert STRIDE * |ms| as real == STRIDE * |ms[1..]| as real + STRIDE;
    }
  }

  // ----- The battle as the program updates it -----

  class Battle {
    const id: u32
    var frame: nat
    var players: map<u32, Player>
    var pending: map<nat, seq<Move>>
    var ring: seq<Snapshot>

    function Model(): State
      reads this
    {
      State(frame, players, pending, ring)
    }

    constructor (id: u32)
      ensures Model() == EMPTY && this.id == id
    {
      this.id := id;
      frame, players, pending, ring := 0, map[], map[], [];
    }

    method AddPlayer(player: u32, conn: u32)
      modifies this
      ensures Model() == Apply(old(Model()), Join(player, conn))
      ensures players == old(players)[player := Player(conn, Pos(if old(players) == map[] then 25.0 else 75.0, 50.0))]
      ensures frame == old(frame) && pending == old(pending) && ring == old(ring)
    {
      assert players == map[] <==> |players| == 0;
      var x := if |players| == 0 then 25.0 else 75.0;
      players := players[player := Player(conn, Pos(x, 50.0))];
    }

    method RemovePlayer(player: u32)
      modifies this
      ensures Model() == Apply(old(Model()), Leave(player))
      ensures players == old(players) - {player} && frame == old(frame) && ring == old(ring)
      ensures pending.Keys == old(pending).Keys
      ensures forall t, q: u32 :: t in pending ==> Own(pending[t], q) == if q == player then [] else Own(old(pending)[t], q)
    {
      forall t, q: u32 | t in pending
        ensures Own(Without(pending[t], player), q) == if q == player then [] else Own(pending[t], q)
      {
        OwnWithout(pending[t], player, q);
      }
      players := players - {player};
      pending := map t | t in pending :: Without(pending[t], player);
    }

    method Input(m: Move, clientFrame: u64)
      modifies this
      ensures Model() == Apply(old(Model()), Event.Input(m, clientFrame))
      ensures var slot := Max(Min(clientFrame + 2, 0xFFFF_FFFF_FFFF_FFFF), old(frame) + 1);
              pending == old(pending)[slot := (if slot in old(pending) then old(pending)[slot] else []) + [m]]
      ensures frame == old(frame) && players == old(players) && ring == old(ring)
    {
      var wanted := if clientFrame > U64_MAX - INPUT_DELAY_FRAMES then U64_MAX else clientFrame + INPUT_DELAY_FRAMES;
      var target := if wanted > frame + 1 then wanted else frame + 1;
      if target !in pending {
        pending := pending[target := []];
      }
      pending := pending[target := pending[target] + [m]];
    }

    method TickFrame()
      modifies this
      ensures Model() == Apply(old(Model()), Tick)
      ensures frame == old(frame) + 1 && pending == old(pending) - {old(frame)}
      ensures ring == (if |old(ring)| < 30 then old(ring) else old(ring)[1..]) + [Snapshot(frame, Positions(players))]
      ensures players.Keys == old(players).Keys
      ensures forall p <- players ::
                players[p].pos == if old(frame) in old(pending) then Walk(old(players)[p].pos, Own(old(pending)[old(frame)], p))
                                  else old(players)[p].pos
    {
      ghost var before := Model();
      if frame in pending {
        var inputs := pending[frame];
        pending := pending - {frame};
        var i := 0;
        while i < |inputs|
          invariant 0 <= i <= |inputs|
          invariant ApplyMoves(players, inputs[i..]) == ApplyMoves(old(players), inputs)
          invariant frame == old(frame) && ring == old(ring) && pending == old(pending) - {frame}
        {
          var m := inputs[i];
          ghost var before := players;
          assert inputs[i..][1..] == inputs[i + 1..];
          if m.player in players {
            var p := players[m.player];
            if m.norm > EPSILON {
              var x := p.pos.x + (m.dx / m.norm) * STRIDE;
              var y := p.pos.y + (m.dy / m.norm) * STRIDE;
              p := p.(pos := Pos(Clamp(x), Clamp(y)));
            }
            assert p.pos == Moved(before[m.player].pos, m);
            assert p == before[m.player].(pos := p.pos);
            players := players[m.player := p];
          }
          assert players == ApplyMove(before, m);
          i := i + 1;
        }
      }
      assert pending == old(pending) - {frame};
      frame := frame + 1;
      ring := ring + [Snapshot(frame, Positions(players))];
      if |ring| > SNAPSHOT_RING {
        ring := ring[1..];
      }
      forall p ensures p in players <==> p in before.players {
        ApplyKeepsMembers(before, Tick, p);
      }
      forall p | p in before.players
        ensures players[p].pos
                == if before.frame in before.pending then Walk(before.players[p].pos, Own(before.pending[before.frame], p))
                   else before.players[p].pos
      {
        WhatMovesAPlayer(before, Tick, p);
      }
    }

    method Resync(last: u64) returns (frames: seq<Snapshot>)
      ensures frames == After(ring, last)
    {
      frames := [];
      var i := 0;
      while i < |ring|
        invariant 0 <= i <= |ring|
        invariant frames + After(ring[i..], last) == After(ring, last)
      {
        assert ring[i..][1..] == ring[i + 1..];
        if ring[i].frame > last {
          frames := frames + [ring[i]];
        }
        i := i + 1;
      }
    }

    /** What the 20 Hz loop does to each battle. The snapshot sent out is the newest frame of the ring. */
    method TickAndBroadcast() returns (sent: Snapshot)
      modifies this
      ensures Model() == Apply(old(Model()), Tick)
      ensures ring != [] && sent == ring[|ring| - 1] && sent.frame == frame == old(frame) + 1
      ensures sent.players.Keys == players.Keys && forall p <- players :: sent.players[p] == players[p].pos
      ensures |ring| == Min(|old(ring)| + 1, 30) || |old(ring)| > 30
      ensures forall es :: old(Model()) == Run(es) ==> Broadcasts(es + [Tick]) == Broadcasts(es) + [sent]
    {
      ghost var before := Model();
      TickFrame();
      sent := TakeSnapshot();
      forall es | before == Run(es) ensures Broadcasts(es + [Tick]) == Broadcasts(es) + [sent] {
        RunOneMore(EMPTY, es, Tick);
        assert (es + [Tick])[..|es|] == es;
      }
    }

    method TakeSnapshot() returns (s: Snapshot)
      ensures s == CurrentSnapshot(Model())
    {
      s := Snapshot(frame, Positions(players));
    }
  }
}
