/** How sharp the multiplexing discipline is, what the `pending` table holds, and the plain rule that
    implies the discipline (crates/grimoire-gateway/src/session.rs and stream.rs). */
module MuxLimits {
  import opened Common
  import opened MuxModel

  // ----- Accepting a frame under a busy key can always end in cross-talk -----

  /** Steps the gateway, the services and the client take with what is already under way. */
  predicate Delivery(e: Event) {
    e.Register? || e.Send? || e.Finish? || e.Abort? || e.Serve? || e.Drop? || e.Route? || e.Receive?
  }

  predicate OnlyDelivery(es: seq<Event>) {
    forall i :: 0 <= i < |es| ==> Delivery(es[i])
  }

  lemma {:induction false} DeliveriesSafe(s: State, es: seq<Event>)
    requires Safe(s) && OnlyDelivery(es)
    ensures Safe(Run(s, es))
    decreases |es|
  {
    if es != [] {
      DeliveriesSafe(s, es[..|es| - 1]);
      StepSafe(Run(s, es[..|es| - 1]), es[|es| - 1]);
    }
  }

  lemma {:induction false} RunJoins(s: State, a: seq<Event>, b: seq<Event>)
    ensures Run(s, a + b) == Run(Run(s, a), b)
    decreases |b|
  {
    if b == [] {
      assert a + b == a;
    } else {
      assert (a + b)[..|a + b| - 1] == a + b[..|b| - 1];
      RunJoins(s, a, b[..|b| - 1]);
    }
  }

  lemma RunOne(s: State, e: Event)
    ensures Run(s, [e]) == Apply(s, e)
  {
    assert [e][..0] == [];
    assert Run(s, []) == s;
  }

  lemma Prepend(s: State, e: Event, es: seq<Event>)
    requires Delivery(e) && OnlyDelivery(es)
    ensures OnlyDelivery([e] + es) && Run(s, [e] + es) == Run(Apply(s, e), es)
  {
    RunOne(s, e);
    RunJoins(s, [e], es);
  }

  /** Task r is entered under the key of a parcel that belongs to another request. */
  ghost predicate Crossing(s: State, r: nat, p: Parcel) {
    && Live(s, r) && s.tasks[r] == Registered(p.key)
    && p.key in s.pending && s.pending[p.key] == r
    && p in Flying(s) && p.origin != r
    && s.requests[r].sess !in s.closed
    && Request(s.requests[r].sess, p.key.seqNo) in s.awaiting
    && s.awaiting[Request(s.requests[r].sess, p.key.seqNo)] == r
  }

  lemma CrossingSend(s: State, r: nat, p: Parcel)
    requires Crossing(s, r, p)
    ensures var t := Apply(Apply(s, Send(r)), Serve(p));
            && Live(t, r) && t.tasks[r] == Waiting(p.key) && t.pending == s.pending && p in t.fromService
            && t.requests == s.requests && t.closed == s.closed && t.awaiting == s.awaiting
  {}

  lemma ReplyArrives(s: State, r: nat, p: Parcel)
    requires Live(s, r) && s.tasks[r] == Waiting(p.key) && p in s.fromService
    requires p.key in s.pending && s.pending[p.key] == r
    requires s.requests[r].sess !in s.closed
    requires Request(s.requests[r].sess, p.key.seqNo) in s.awaiting
    requires s.awaiting[Request(s.requests[r].sess, p.key.seqNo)] == r
    ensures var m := Response(s.requests[r].sess, p.key.seqNo, p.origin);
            var t := Apply(Apply(Apply(s, Route(p)), Finish(r)), Receive(m));
            r in t.got && t.got[r] == p.origin
  {}

  lemma CrossingCrosses(s: State, r: nat, p: Parcel) returns (es: seq<Event>)
    requires Crossing(s, r, p)
    ensures OnlyDelivery(es) && !NoCrossTalk(Run(s, es).got)
  {
    var m := Response(s.requests[r].sess, p.key.seqNo, p.origin);
    CrossingSend(s, r, p);
    var t := Apply(Apply(s, Send(r)), Serve(p));
    ReplyArrives(t, r, p);
    var u := Apply(Apply(t, Route(p)), Finish(r));
    RunOne(u, Receive(m));
    assert Run(u, [Receive(m)]).got[r] != r;
    es := [Receive(m)];
    Prepend(Apply(t, Route(p)), Finish(r), es);
    es := [Finish(r)] + es;
    Prepend(t, Route(p), es);
    es := [Route(p)] + es;
    Prepend(Apply(s, Send(r)), Serve(p), es);
    es := [Serve(p)] + es;
    Prepend(s, Send(r), es);
    es := [Send(r)] + es;
  }

  /** A frame is about to be accepted on an open connection. */
  ghost predicate AboutToAccept(s: State, r: nat) {
    Safe(s) && r in s.arriving && r < |s.requests| && s.requests[r].sess !in s.closed
  }

  lemma RequestWaits(s: State, r: nat)
    requires AboutToAccept(s, r)
    ensures s.requests[r] in s.awaiting && s.awaiting[s.requests[r]] == r && r !in s.tasks
  {
    SameNumber(s.requests, s.awaiting[s.requests[r]], r);
  }

  lemma BusyParcelCrosses(s: State, r: nat, p: Parcel) returns (es: seq<Event>)
    requires AboutToAccept(s, r) && p in Flying(s) && p.key == KeyOf(s, r)
    ensures OnlyDelivery(es) && !NoCrossTalk(Run(Apply(s, Accept(r)), es).got)
  {
    RequestWaits(s, r);
    AcceptedIsRouting(s, r);
    es := SameKeyParcelCrosses(Apply(s, Accept(r)), r, p);
  }

  lemma AcceptedIsRouting(s: State, r: nat)
    requires r in s.arriving && r < |s.requests|
    ensures var t := Apply(s, Accept(r));
            && Live(t, r) && t.tasks[r].Routing? && KeyOf(t, r) == KeyOf(s, r) && Flying(t) == Flying(s)
            && t.requests == s.requests && t.closed == s.closed && t.awaiting == s.awaiting
  {}

  lemma EnterUnderParcel(s: State, r: nat, p: Parcel)
    requires Live(s, r) && s.tasks[r].Routing? && p in Flying(s) && p.key == KeyOf(s, r) && p.origin != r
    requires s.requests[r].sess !in s.closed && s.requests[r] in s.awaiting && s.awaiting[s.requests[r]] == r
    ensures Crossing(Apply(s, Register(r)), r, p)
  {}

  /** A task choosing a node can be entered under the key of a parcel that belongs to another request. */
  lemma SameKeyParcelCrosses(s: State, r: nat, p: Parcel) returns (es: seq<Event>)
    requires Live(s, r) && s.tasks[r].Routing? && p in Flying(s) && p.key == KeyOf(s, r) && p.origin != r
    requires s.requests[r].sess !in s.closed && s.requests[r] in s.awaiting && s.awaiting[s.requests[r]] == r
    ensures OnlyDelivery(es) && !NoCrossTalk(Run(s, es).got)
  {
    EnterUnderParcel(s, r, p);
    es := CrossingCrosses(Apply(s, Register(r)), r, p);
    Prepend(s, Register(r), es);
    es := [Register(r)] + es;
  }

  lemma EnterBoth(s: State, r: nat, t: nat)
    requires Live(s, r) && s.tasks[r].Routing? && t != r
    requires Live(s, t) && ((s.tasks[t].Routing? && KeyOf(s, t) == KeyOf(s, r)) || s.tasks[t] == Registered(KeyOf(s, r)))
    requires s.requests[r].sess !in s.closed && s.requests[r] in s.awaiting && s.awaiting[s.requests[r]] == r
    ensures Crossing(Apply(Apply(Apply(s, Register(t)), Register(r)), Send(t)), r, Parcel(KeyOf(s, r), t))
  {
    var k := KeyOf(s, r);
    var s1 := Apply(s, Register(t));
    assert Live(s1, t) && s1.tasks[t] == Registered(k) && Live(s1, r) && s1.tasks[r] == Routing && KeyOf(s1, r) == k;
    var s2 := Apply(s1, Register(r));
    assert Live(s2, t) && s2.tasks[t] == Registered(k) && s2.tasks[r] == Registered(k) && s2.pending[k] == r;
    var s3 := Apply(s2, Send(t));
    assert Parcel(k, t) in s3.toService;
  }

  /** Two tasks about to send under one key: the second to be entered can get the first one's reply. */
  lemma SameKeyCrosses(s: State, r: nat, t: nat) returns (es: seq<Event>)
    requires Live(s, r) && s.tasks[r].Routing? && t != r && t in Senders(s) && Senders(s)[t] == KeyOf(s, r)
    requires s.requests[r].sess !in s.closed && s.requests[r] in s.awaiting && s.awaiting[s.requests[r]] == r
    ensures OnlyDelivery(es) && !NoCrossTalk(Run(s, es).got)
  {
    EnterBoth(s, r, t);
    var s1 := Apply(s, Register(t));
    var s2 := Apply(s1, Register(r));
    es := CrossingCrosses(Apply(s2, Send(t)), r, Parcel(KeyOf(s, r), t));
    Prepend(s2, Send(t), es);
    es := [Send(t)] + es;
    Prepend(s1, Register(r), es);
    es := [Register(r)] + es;
    Prepend(s, Register(t), es);
    es := [Register(t)] + es;
  }

  lemma OthersStillSend(s: State, r: nat, t: nat)
    requires r in s.arriving && r !in s.tasks && t in Senders(s)
    ensures t in Senders(Apply(s, Accept(r))) && Senders(Apply(s, Accept(r)))[t] == Senders(s)[t]
  {}

  lemma BusySenderCrosses(s: State, r: nat, t: nat) returns (es: seq<Event>)
    requires AboutToAccept(s, r) && t in Senders(s) && Senders(s)[t] == KeyOf(s, r)
    ensures OnlyDelivery(es) && !NoCrossTalk(Run(Apply(s, Accept(r)), es).got)
  {
    RequestWaits(s, r);
    AcceptedIsRouting(s, r);
    OthersStillSend(s, r, t);
    es := SameKeyCrosses(Apply(s, Accept(r)), r, t);
  }

  /** The guard on accepting is exact: a frame accepted on an open connection leaves every continuation
      free of cross-talk if and only if no other traffic uses its key at that moment. */
  lemma AcceptGuardExact(s: State, r: nat)
    requires AboutToAccept(s, r)
    ensures SenderFree(s, KeyOf(s, r))
            <==> forall es :: OnlyDelivery(es) ==> NoCrossTalk(Run(Apply(s, Accept(r)), es).got)
  {
    var k := KeyOf(s, r);
    if SenderFree(s, k) {
      StepSafe(s, Accept(r));
      forall es | OnlyDelivery(es) ensures NoCrossTalk(Run(Apply(s, Accept(r)), es).got) {
        DeliveriesSafe(Apply(s, Accept(r)), es);
      }
    } else if exists p :: p in Flying(s) && p.key == k {
      var p :| p in Flying(s) && p.key == k;
      var es := BusyParcelCrosses(s, r, p);
    } else {
      var t :| t in Senders(s) && Senders(s)[t] == k;
      var es := BusySenderCrosses(s, r, t);
    }
  }

  /** The connection is open and every request for which it is choosing a node is still awaited. */
  ghost predicate AboutToRebind(s: State, sess: nat) {
    && Safe(s) && sess !in s.closed
    && forall t: nat :: ChoosingOn(s, sess, t) ==> s.requests[t] in s.awaiting && s.awaiting[s.requests[t]] == t
  }

  lemma RebindOntoParcelCrosses(s: State, sess: nat, c: u32, r: nat, p: Parcel) returns (es: seq<Event>)
    requires AboutToRebind(s, sess) && ChoosingOn(s, sess, r) && p in Flying(s) && p.key == KeyOf(Rebound(s, sess, c), r)
    ensures OnlyDelivery(es) && !NoCrossTalk(Run(Rebound(s, sess, c), es).got)
  {
    assert r in Senders(s);
    es := SameKeyParcelCrosses(Rebound(s, sess, c), r, p);
  }

  lemma RebindOntoSenderCrosses(s: State, sess: nat, c: u32, r: nat, t: nat) returns (es: seq<Event>)
    requires AboutToRebind(s, sess) && ChoosingOn(s, sess, r) && t != r
    requires t in Senders(Rebound(s, sess, c)) && Senders(Rebound(s, sess, c))[t] == KeyOf(Rebound(s, sess, c), r)
    ensures OnlyDelivery(es) && !NoCrossTalk(Run(Rebound(s, sess, c), es).got)
  {
    es := SameKeyCrosses(Rebound(s, sess, c), r, t);
  }

  /** The guard on rebinding is exact as well: a connection rebound while it is choosing nodes leaves every
      continuation free of cross-talk if and only if nobody uses the keys its requests then get. */
  lemma BindGuardExact(s: State, sess: nat, c: u32)
    requires AboutToRebind(s, sess)
    ensures RebindFree(s, sess, c)
            <==> forall es :: OnlyDelivery(es) ==> NoCrossTalk(Run(Rebound(s, sess, c), es).got)
  {
    var s1 := Rebound(s, sess, c);
    if RebindFree(s, sess, c) {
      BindSafe(s, sess, c);
      forall es | OnlyDelivery(es) ensures NoCrossTalk(Run(s1, es).got) {
        DeliveriesSafe(s1, es);
      }
    } else {
      var r: nat :| ChoosingOn(s, sess, r) && !KeyUnusedByOthers(s1, r);
      if exists p :: p in Flying(s) && p.key == KeyOf(s1, r) {
        var p :| p in Flying(s) && p.key == KeyOf(s1, r);
        var es := RebindOntoParcelCrosses(s, sess, c, r, p);
      } else {
        var t :| t in Senders(s1) && t != r && Senders(s1)[t] == KeyOf(s1, r);
        var es := RebindOntoSenderCrosses(s, sess, c, r, t);
      }
    }
  }

  // ----- An undisturbed request is answered -----

  lemma Sends(s: State, r: nat)
    requires Live(s, r) && s.tasks[r].Routing?
    ensures var p := Parcel(KeyOf(s, r), r); var t := Apply(Apply(Apply(s, Register(r)), Send(r)), Serve(p));
            && Live(t, r) && t.tasks[r] == Waiting(p.key) && p in t.fromService
            && p.key in t.pending && t.pending[p.key] == r && p !in t.toService
            && t.requests == s.requests && t.closed == s.closed && t.awaiting == s.awaiting
  {}

  /** A new request on an open connection sets off: its frame can be accepted, with everything in order. */
  lemma RequestSetsOff(s: State, sess: nat, n: u32)
    requires Safe(s) && n != 0 && sess !in s.closed && Request(sess, n) !in s.requests
    ensures var t := Apply(s, Issue(sess, n));
            AboutToAccept(t, |s.requests|) && t.requests == s.requests + [Request(sess, n)]
  {
    IssueSafe(s, Request(sess, n));
  }

  /** A frame accepted on an open connection is answered: entered, sent, served, routed, finished and
      received, with nothing lost, it leaves its client with the reply computed from this very request. */
  lemma RequestIsAnswered(s: State, r: nat)
    requires AboutToAccept(s, r)
    ensures var p := Parcel(KeyOf(s, r), r);
            var sent := Apply(Apply(Apply(Apply(s, Accept(r)), Register(r)), Send(r)), Serve(p));
            var t := Apply(Apply(Apply(sent, Route(p)), Finish(r)), Receive(Response(s.requests[r].sess, p.key.seqNo, r)));
            r in t.got && t.got[r] == r
  {
    RequestWaits(s, r);
    AcceptedIsRouting(s, r);
    var s1, p := Apply(s, Accept(r)), Parcel(KeyOf(s, r), r);
    Sends(s1, r);
    ReplyArrives(Apply(Apply(Apply(s1, Register(r)), Send(r)), Serve(p)), r, p);
  }

  lemma SendsInVain(s: State, r: nat)
    requires Live(s, r) && s.tasks[r].Routing?
    ensures var p := Parcel(KeyOf(s, r), r); var t := Apply(Apply(Apply(s, Register(r)), Send(r)), Drop(p));
            && Live(t, r) && KeyOf(t, r) == p.key && p !in Flying(t)
            && t.requests == s.requests && t.closed == s.closed && t.awaiting == s.awaiting
  {}

  lemma GivesUp(s: State, r: nat)
    requires Live(s, r) && s.requests[r].sess !in s.closed
    requires s.requests[r] in s.awaiting && s.awaiting[s.requests[r]] == r
    ensures var t := Apply(Apply(s, Abort(r)), Receive(Response(s.requests[r].sess, s.requests[r].seqNo, r)));
            && r in t.got && t.got[r] == r && KeyOf(s, r) !in t.pending && Flying(t) == Flying(s)
  {}

  /** A request lost on its stream is answered too, after the timeout, and leaves nothing behind. */
  lemma LostRequestIsAnswered(s: State, r: nat)
    requires AboutToAccept(s, r)
    ensures var p := Parcel(KeyOf(s, r), r); var q := s.requests[r];
            var lost := Apply(Apply(Apply(Apply(s, Accept(r)), Register(r)), Send(r)), Drop(p));
            var t := Apply(Apply(lost, Abort(r)), Receive(Response(q.sess, q.seqNo, r)));
            r in t.got && t.got[r] == r && p.key !in t.pending && p !in Flying(t)
  {
    RequestWaits(s, r);
    AcceptedIsRouting(s, r);
    var s1, p := Apply(s, Accept(r)), Parcel(KeyOf(s, r), r);
    SendsInVain(s1, r);
    GivesUp(Apply(Apply(Apply(s1, Register(r)), Send(r)), Drop(p)), r);
  }

  /** A response wakes whoever waits under its seq, and later ones under that seq wake nobody. */
  lemma AnsweredOnce(s: State, m: Response, later: Response)
    requires m in s.toClient && Request(m.sess, m.seqNo) in s.awaiting
    requires later.sess == m.sess && later.seqNo == m.seqNo
    ensures var t := Apply(s, Receive(m));
            && t.got == s.got[s.awaiting[Request(m.sess, m.seqNo)] := m.origin] && m !in t.toClient
            && Apply(t, Receive(later)).got == t.got && Apply(t, Receive(later)).awaiting == t.awaiting
  {
  }

  /** A frame that the gateway answers itself is answered as well, if its connection is open. */
  lemma RejectionIsAnswered(s: State, r: nat)
    requires AboutToAccept(s, r)
    ensures var m := Response(s.requests[r].sess, s.requests[r].seqNo, r);
            var t := Apply(Apply(s, Reject(r)), Receive(m)); r in t.got && t.got[r] == r
  {
    RequestWaits(s, r);
  }

  /** A UDP request goes to a service under the connection's current id and seq 0, and nobody waits for it. */
  lemma DatagramGoesOut(s: State, sess: nat)
    ensures var t := Apply(s, Datagram(sess));
            && t.toService == s.toService + {Parcel(Key(ConnOf(s, sess), 0), |s.requests|)}
            && t.awaiting == s.awaiting && t.pending == s.pending && t.tasks == s.tasks
  {
  }

  // ----- The pending table holds exactly the keys of the tasks that wait -----

  /** The unfinished tasks, each with the key it has now. */
  function LiveKeys(s: State): map<nat, Key> {
    map t | t in s.tasks && Live(s, t) :: KeyOf(s, t)
  }

  /** A frame is accepted only under a key no unfinished task has, and a connection is not rebound while
      it has an unfinished task. */
  ghost predicate TidyAllowed(s: State, e: Event) {
    match e
    case Accept(r) => r in s.arriving && r < |s.requests| ==> forall t :: t in LiveKeys(s) ==> LiveKeys(s)[t] != KeyOf(s, r)
    case Bind(sess, _) => forall t: nat :: Live(s, t) ==> s.requests[t].sess != sess
    case _ => true
  }

  ghost predicate TidyDisciplined(es: seq<Event>)
    decreases |es|
  {
    es == [] || (TidyDisciplined(es[..|es| - 1]) && TidyAllowed(Run(EMPTY, es[..|es| - 1]), es[|es| - 1]))
  }

  ghost predicate NumbersFine(rs: seq<Request>, arriving: set<nat>, started: set<nat>) {
    && (forall r :: r in arriving ==> r < |rs| && r !in started)
    && (forall r :: r in started ==> r < |rs|)
  }

  ghost predicate KeysApart(keys: map<nat, Key>) {
    forall t, u :: t in keys && u in keys && t != u ==> keys[t] != keys[u]
  }

  ghost predicate PhasesFit(tasks: map<nat, Phase>, keys: map<nat, Key>) {
    && (forall t :: t in keys ==> t in tasks && !tasks[t].Done? && (tasks[t].Routing? || tasks[t].key == keys[t]))
    && (forall t :: t in tasks && !tasks[t].Done? ==> t in keys)
  }

  /** An unfinished task that has been entered and has no reply yet. */
  predicate Waits(tasks: map<nat, Phase>, inbox: map<nat, Parcel>, t: nat) {
    t in tasks && !tasks[t].Done? && !tasks[t].Routing? && t !in inbox
  }

  ghost predicate TableFits(tasks: map<nat, Phase>, keys: map<nat, Key>, pending: map<Key, nat>, inbox: map<nat, Parcel>) {
    && (forall k :: k in pending ==> pending[k] in keys && keys[pending[k]] == k && Waits(tasks, inbox, pending[k]))
    && (forall t :: t in keys && Waits(tasks, inbox, t) ==> keys[t] in pending && pending[keys[t]] == t)
    && (forall t :: t in inbox ==> t in tasks && !tasks[t].Routing?)
  }

  /** Unfinished tasks have made no Response attempt, finished ones exactly one; except that a reply in
      hand that met a closed channel was followed by one more attempt on the error path. */
  ghost predicate AttemptsFit(tasks: map<nat, Phase>, attempts: multiset<nat>) {
    forall t: nat :: attempts[t] == if t !in tasks || !tasks[t].Done? then 0
                               else if tasks[t].hadReply && !tasks[t].sent then 2 else 1
  }

  ghost predicate Tidy(s: State) {
    && NumbersFine(s.requests, s.arriving, s.tasks.Keys)
    && KeysApart(LiveKeys(s))
    && PhasesFit(s.tasks, LiveKeys(s))
    && TableFits(s.tasks, LiveKeys(s), s.pending, s.inbox)
    && AttemptsFit(s.tasks, s.attempts)
  }

  lemma LiveKeysSee(s: State, t: State)
    requires t.requests == s.requests && t.tasks == s.tasks && t.connId == s.connId
    ensures LiveKeys(t) == LiveKeys(s)
  {}

  lemma NewRequestTidy(s: State, t: State, q: Request)
    requires Tidy(s) && t.requests == s.requests + [q] && (t.arriving == s.arriving || t.arriving == s.arriving + {|s.requests|})
    requires t.tasks == s.tasks && t.connId == s.connId && t.pending == s.pending && t.inbox == s.inbox && t.attempts == s.attempts
    ensures Tidy(t)
  {
    NumbersGrow(s.requests, s.arriving, s.tasks.Keys, q);
    LiveKeysIgnoreNewRequests(s, t, q);
  }

  lemma NumbersGrow(rs: seq<Request>, arriving: set<nat>, started: set<nat>, q: Request)
    requires NumbersFine(rs, arriving, started)
    ensures NumbersFine(rs + [q], arriving, started) && NumbersFine(rs + [q], arriving + {|rs|}, started)
  {}

  lemma LiveKeysIgnoreNewRequests(s: State, t: State, q: Request)
    requires t.requests == s.requests + [q] && t.tasks == s.tasks && t.connId == s.connId
    requires forall r: nat :: r in s.tasks ==> r < |s.requests|
    ensures LiveKeys(t) == LiveKeys(s)
  {}

  lemma AcceptTidy(s: State, r: nat)
    requires Tidy(s) && TidyAllowed(s, Accept(r))
    ensures Tidy(DoAccept(s, r))
  {
    if r in s.arriving {
      AcceptKeys(s, r);
      StartTidy(s.tasks, LiveKeys(s), s.pending, s.inbox, s.attempts, r, KeyOf(s, r));
    }
  }

  lemma AcceptKeys(s: State, r: nat)
    requires r in s.arriving && NumbersFine(s.requests, s.arriving, s.tasks.Keys)
    ensures LiveKeys(DoAccept(s, r)) == LiveKeys(s)[r := KeyOf(s, r)]
    ensures var t := DoAccept(s, r); NumbersFine(t.requests, t.arriving, t.tasks.Keys)
  {}

  lemma StartTidy(tasks: map<nat, Phase>, keys: map<nat, Key>, pending: map<Key, nat>, inbox: map<nat, Parcel>,
                  attempts: multiset<nat>, r: nat, k: Key)
    requires KeysApart(keys) && PhasesFit(tasks, keys) && TableFits(tasks, keys, pending, inbox) && AttemptsFit(tasks, attempts)
    requires r !in tasks && forall t :: t in keys ==> keys[t] != k
    ensures KeysApart(keys[r := k]) && PhasesFit(tasks[r := Routing], keys[r := k])
    ensures TableFits(tasks[r := Routing], keys[r := k], pending, inbox) && AttemptsFit(tasks[r := Routing], attempts)
  {}

  /** An unfinished task moves to another unfinished phase: its key stays. */
  lemma MoveKeys(s: State, r: nat, ph: Phase)
    requires Live(s, r) && !ph.Done?
    ensures var t := s.(tasks := s.tasks[r := ph]); LiveKeys(t) == LiveKeys(s) && t.tasks.Keys == s.tasks.Keys
  {}

  lemma RegisterTidy(s: State, r: nat)
    requires Tidy(s)
    ensures Tidy(DoRegister(s, r))
  {
    if Live(s, r) && s.tasks[r].Routing? {
      var k := KeyOf(s, r);
      MoveKeys(s, r, Registered(k));
      LiveKeysSee(s.(tasks := s.tasks[r := Registered(k)]), DoRegister(s, r));
      assert LiveKeys(s)[r] == k;
      EnterTidy(s.tasks, LiveKeys(s), s.pending, s.inbox, s.attempts, r);
    }
  }

  lemma EnterTidy(tasks: map<nat, Phase>, keys: map<nat, Key>, pending: map<Key, nat>, inbox: map<nat, Parcel>,
                  attempts: multiset<nat>, r: nat)
    requires KeysApart(keys) && PhasesFit(tasks, keys) && TableFits(tasks, keys, pending, inbox) && AttemptsFit(tasks, attempts)
    requires r in keys && tasks[r].Routing?
    ensures var tasks' := tasks[r := Registered(keys[r])];
            && PhasesFit(tasks', keys) && TableFits(tasks', keys, pending[keys[r] := r], inbox) && AttemptsFit(tasks', attempts)
  {}

  lemma SendTidy(s: State, r: nat)
    requires Tidy(s)
    ensures Tidy(DoSend(s, r))
  {
    if Live(s, r) && s.tasks[r].Registered? {
      var k := s.tasks[r].key;
      MoveKeys(s, r, Waiting(k));
      LiveKeysSee(s.(tasks := s.tasks[r := Waiting(k)]), DoSend(s, r));
      HandOnTidy(s.tasks, LiveKeys(s), s.pending, s.inbox, s.attempts, r);
    }
  }

  lemma HandOnTidy(tasks: map<nat, Phase>, keys: map<nat, Key>, pending: map<Key, nat>, inbox: map<nat, Parcel>,
                   attempts: multiset<nat>, r: nat)
    requires PhasesFit(tasks, keys) && TableFits(tasks, keys, pending, inbox) && AttemptsFit(tasks, attempts)
    requires r in keys && tasks[r].Registered?
    ensures var tasks' := tasks[r := Waiting(tasks[r].key)];
            PhasesFit(tasks', keys) && TableFits(tasks', keys, pending, inbox) && AttemptsFit(tasks', attempts)
  {}

  lemma RouteTidy(s: State, p: Parcel)
    requires Tidy(s)
    ensures Tidy(DoRoute(s, p))
  {
    LiveKeysSee(s, DoRoute(s, p));
    if p in s.fromService && p.key in s.pending {
      ReplyTidy(s.tasks, LiveKeys(s), s.pending, s.inbox, p);
    }
  }

  lemma ReplyTidy(tasks: map<nat, Phase>, keys: map<nat, Key>, pending: map<Key, nat>, inbox: map<nat, Parcel>, p: Parcel)
    requires KeysApart(keys) && TableFits(tasks, keys, pending, inbox) && p.key in pending
    ensures TableFits(tasks, keys, pending - {p.key}, inbox[pending[p.key] := p])
  {}

  lemma EndKeys(s: State, r: nat, ph: Phase)
    requires Live(s, r) && ph.Done?
    ensures var t := s.(tasks := s.tasks[r := ph]); LiveKeys(t) == LiveKeys(s) - {r} && t.tasks.Keys == s.tasks.Keys
  {}

  lemma EndTidy(tasks: map<nat, Phase>, keys: map<nat, Key>, pending: map<Key, nat>, inbox: map<nat, Parcel>, r: nat, ph: Phase)
    requires KeysApart(keys) && PhasesFit(tasks, keys) && TableFits(tasks, keys, pending, inbox)
    requires r in keys && ph.Done?
    ensures KeysApart(keys - {r}) && PhasesFit(tasks[r := ph], keys - {r})
    ensures TableFits(tasks[r := ph], keys - {r}, pending - {keys[r]}, inbox)
    ensures r in inbox ==> keys[r] !in pending
  {}

  lemma FinishTidy(s: State, r: nat)
    requires Tidy(s)
    ensures Tidy(DoFinish(s, r))
  {
    if Live(s, r) && s.tasks[r].Waiting? && r in s.inbox {
      var ph := Done(s.requests[r].sess !in s.closed, true);
      EndKeys(s, r, ph);
      EndTidy(s.tasks, LiveKeys(s), s.pending, s.inbox, r, ph);
      assert s.pending - {KeyOf(s, r)} == s.pending;
      LiveKeysSee(s.(tasks := s.tasks[r := ph]), DoFinish(s, r));
      AttemptsEnd(s.tasks, s.attempts, r, ph);
    }
  }

  lemma AttemptsEnd(tasks: map<nat, Phase>, attempts: multiset<nat>, r: nat, ph: Phase)
    requires AttemptsFit(tasks, attempts) && r in tasks && !tasks[r].Done? && ph.Done?
    ensures AttemptsFit(tasks[r := ph], attempts + if ph.hadReply && !ph.sent then multiset{r, r} else multiset{r})
  {}

  lemma AbortTidy(s: State, r: nat)
    requires Tidy(s)
    ensures Tidy(DoAbort(s, r))
  {
    if Live(s, r) {
      var ph := Done(s.requests[r].sess !in s.closed, false);
      EndKeys(s, r, ph);
      EndTidy(s.tasks, LiveKeys(s), s.pending, s.inbox, r, ph);
      LiveKeysSee(s.(tasks := s.tasks[r := ph]), DoAbort(s, r));
      AttemptsEnd(s.tasks, s.attempts, r, ph);
    }
  }

  lemma RebindTidy(s: State, sess: nat, c: u32)
    requires Tidy(s) && TidyAllowed(s, Bind(sess, c))
    ensures Tidy(Apply(s, Bind(sess, c)))
  {
    RebindKeys(s, sess, c);
  }

  lemma RebindKeys(s: State, sess: nat, c: u32)
    requires forall t: nat :: Live(s, t) ==> s.requests[t].sess != sess
    ensures LiveKeys(Apply(s, Bind(sess, c))) == LiveKeys(s)
  {}

  lemma OtherStepTidy(s: State, t: State)
    requires Tidy(s) && SameBase(s, t) && SameTasks(s, t) && t.arriving <= s.arriving
    ensures Tidy(t)
  {
    LiveKeysSee(s, t);
  }

  lemma TaskStepTidy(s: State, e: Event)
    requires Tidy(s) && (e.Register? || e.Send? || e.Route? || e.Finish? || e.Abort?)
    ensures Tidy(Apply(s, e))
  {
    match e
    case Register(r) => RegisterTidy(s, r);
    case Send(r) => SendTidy(s, r);
    case Route(p) => RouteTidy(s, p);
    case Finish(r) => FinishTidy(s, r);
    case Abort(r) => AbortTidy(s, r);
  }

  lemma EdgeStepTidy(s: State, e: Event)
    requires Tidy(s) && TidyAllowed(s, e) && (e.Bind? || e.Issue? || e.Datagram? || e.Accept?)
    ensures Tidy(Apply(s, e))
  {
    match e
    case Bind(sess, c) => RebindTidy(s, sess, c);
    case Issue(sess, n) => NewRequestTidy(s, Apply(s, e), Request(sess, n));
    case Datagram(sess) => NewRequestTidy(s, Apply(s, e), Request(sess, 0));
    case Accept(r) => AcceptTidy(s, r);
  }

  lemma StepTidy(s: State, e: Event)
    requires Tidy(s) && TidyAllowed(s, e)
    ensures Tidy(Apply(s, e))
  {
    if e.Register? || e.Send? || e.Route? || e.Finish? || e.Abort? {
      TaskStepTidy(s, e);
    } else if e.Bind? || e.Issue? || e.Datagram? || e.Accept? {
      EdgeStepTidy(s, e);
    } else {
      QuietStepTidy(s, e);
    }
  }

  lemma QuietStepTidy(s: State, e: Event)
    requires Tidy(s) && (e.CloseChannel? || e.Reject? || e.Serve? || e.Drop? || e.Receive?)
    ensures Tidy(Apply(s, e))
  {
    QuietStep(s, e);
    OtherStepTidy(s, Apply(s, e));
  }

  lemma QuietStep(s: State, e: Event)
    requires e.CloseChannel? || e.Reject? || e.Serve? || e.Drop? || e.Receive?
    ensures SameBase(s, Apply(s, e)) && SameTasks(s, Apply(s, e)) && Apply(s, e).arriving <= s.arriving
  {}

  lemma {:induction false} TidyInEveryRun(es: seq<Event>)
    requires TidyDisciplined(es)
    ensures Tidy(Run(EMPTY, es))
    decreases |es|
  {
    if es != [] {
      TidyInEveryRun(es[..|es| - 1]);
      StepTidy(Run(EMPTY, es[..|es| - 1]), es[|es| - 1]);
    }
  }

  /** In every tidy run `pending` holds exactly the keys of the tasks still waiting, each with its task,
      so it is empty once all tasks have ended; and every finished task has made exactly one Response
      attempt, or two if its reply met a closed channel. */
  lemma PendingIsWhoWaits(es: seq<Event>)
    requires TidyDisciplined(es)
    ensures var s := Run(EMPTY, es);
            && (forall k: Key, t: nat :: (k in s.pending && s.pending[k] == t)
                                         <==> (Waits(s.tasks, s.inbox, t) && t < |s.requests| && KeyOf(s, t) == k))
            && ((forall t :: t in s.tasks ==> s.tasks[t].Done?) ==> s.pending == map[])
            && AttemptsFit(s.tasks, s.attempts)
  {
    TidyInEveryRun(es);
    TableRead(Run(EMPTY, es));
  }

  lemma TableRead(s: State)
    requires Tidy(s)
    ensures forall k: Key, t: nat :: (k in s.pending && s.pending[k] == t)
                                     <==> (Waits(s.tasks, s.inbox, t) && t < |s.requests| && KeyOf(s, t) == k)
    ensures (forall t :: t in s.tasks ==> s.tasks[t].Done?) ==> s.pending == map[]
  {
    forall k: Key, t: nat ensures (k in s.pending && s.pending[k] == t)
                                  <==> (Waits(s.tasks, s.inbox, t) && t < |s.requests| && KeyOf(s, t) == k) {
      if Waits(s.tasks, s.inbox, t) { assert t in LiveKeys(s); }
    }
  }

  // ----- Never reusing a (conn_id, seq) is enough -----

  /** The keys under which frames have been accepted. */
  function UsedKeys(es: seq<Event>): set<Key>
    decreases |es|
  {
    if es == [] then {}
    else
      var s, e := Run(EMPTY, es[..|es| - 1]), es[|es| - 1];
      UsedKeys(es[..|es| - 1])
      + if e.Accept? && e.r in s.arriving && e.r < |s.requests| then {KeyOf(s, e.r)} else {}
  }

  /** The plain rules: no seq twice on a connection, no seq 0, no (conn_id, seq) accepted twice, and no
      resume while the connection's requests are in flight. */
  ghost predicate Plain(s: State, used: set<Key>, e: Event) {
    match e
    case Issue(sess, n) => n != 0 && Request(sess, n) !in s.requests
    case Accept(r) => r in s.arriving && r < |s.requests| ==> KeyOf(s, r) !in used
    case Bind(sess, _) => forall t: nat :: Live(s, t) ==> s.requests[t].sess != sess
    case _ => true
  }

  ghost predicate PlainStep(es: seq<Event>, e: Event) {
    Plain(Run(EMPTY, es), UsedKeys(es), e)
  }

  ghost predicate PlainRules(es: seq<Event>)
    decreases |es|
  {
    es == [] || (PlainRules(es[..|es| - 1]) && PlainStep(es[..|es| - 1], es[|es| - 1]))
  }

  /** Everything that is going on happens under used keys, one-way traffic aside. */
  ghost predicate AllUsed(s: State, used: set<Key>) {
    && (forall t :: t in LiveKeys(s) ==> LiveKeys(s)[t] in used)
    && (forall p :: p in Flying(s) ==> p.key.seqNo == 0 || p.key in used)
  }

  lemma TasksStep(s: State, e: Event, t: nat)
    requires Live(Apply(s, e), t) && !(e == Accept(t) && t in s.arriving)
    ensures t in s.tasks && !s.tasks[t].Done?
  {}

  lemma RequestsStep(s: State, e: Event)
    ensures s.requests <= Apply(s, e).requests
    ensures !e.Bind? ==> Apply(s, e).connId == s.connId
  {
    if !e.Bind? && !e.Issue? && !e.Datagram? { assert SameBase(s, Apply(s, e)); }
  }

  lemma LiveKeysStep(s: State, e: Event, t: nat)
    requires NumbersFine(s.requests, s.arriving, s.tasks.Keys) && TidyAllowed(s, e) && t in LiveKeys(Apply(s, e))
    ensures || (t in LiveKeys(s) && LiveKeys(Apply(s, e))[t] == LiveKeys(s)[t])
            || (e == Accept(t) && t in s.arriving && t < |s.requests| && LiveKeys(Apply(s, e))[t] == KeyOf(s, t))
  {
    if e.Bind? {
      RebindKeys(s, e.sess, e.conn);
    } else {
      RequestsStep(s, e);
      if !(e == Accept(t) && t in s.arriving) { TasksStep(s, e, t); }
    }
  }

  lemma SentBy(s: State, r: nat, p: Parcel)
    requires Tidy(s) && p in Flying(DoSend(s, r)) && p !in Flying(s)
    ensures p.origin in LiveKeys(s) && LiveKeys(s)[p.origin] == p.key
  {}

  lemma FlyingStep(s: State, e: Event, p: Parcel)
    requires Tidy(s) && p in Flying(Apply(s, e)) && p !in Flying(s)
    ensures p.key.seqNo == 0 || (p.origin in LiveKeys(s) && LiveKeys(s)[p.origin] == p.key)
  {
    if e.Send? {
      SentBy(s, e.r, p);
    } else if !e.Datagram? {
      NothingNewFlies(s, e, p);
    }
  }

  lemma NothingNewFlies(s: State, e: Event, p: Parcel)
    requires !e.Send? && !e.Datagram? && p in Flying(Apply(s, e))
    ensures p in Flying(s)
  {
    if !e.Serve? && !e.Drop? && !e.Route? { assert SameTraffic(s, Apply(s, e)); }
  }

  lemma FreshKeyIsFree(s: State, used: set<Key>, r: nat)
    requires Safe(s) && Tidy(s) && AllUsed(s, used) && r in s.arriving && r < |s.requests| && KeyOf(s, r) !in used
    ensures SenderFree(s, KeyOf(s, r))
    ensures forall t :: t in LiveKeys(s) ==> LiveKeys(s)[t] != KeyOf(s, r)
  {
    forall t | t in Senders(s) ensures t in LiveKeys(s) && Senders(s)[t] == LiveKeys(s)[t] {}
  }

  lemma PlainIsAllowed(pre: seq<Event>, e: Event)
    requires PlainStep(pre, e)
    requires var s := Run(EMPTY, pre); Safe(s) && Tidy(s) && AllUsed(s, UsedKeys(pre))
    ensures Allowed(Run(EMPTY, pre), e) && TidyAllowed(Run(EMPTY, pre), e)
  {
    var s := Run(EMPTY, pre);
    if e.Accept? && e.r in s.arriving && e.r < |s.requests| {
      FreshKeyIsFree(s, UsedKeys(pre), e.r);
    }
  }

  lemma {:induction false} PlainRulesHold(es: seq<Event>)
    requires PlainRules(es)
    ensures Disciplined(es) && TidyDisciplined(es)
    ensures Safe(Run(EMPTY, es)) && Tidy(Run(EMPTY, es)) && AllUsed(Run(EMPTY, es), UsedKeys(es))
    decreases |es|
  {
    if es != [] {
      var pre, e := es[..|es| - 1], es[|es| - 1];
      PlainRulesHold(pre);
      var s := Run(EMPTY, pre);
      PlainIsAllowed(pre, e);
      StepSafe(s, e);
      StepTidy(s, e);
      UsedStep(s, e, UsedKeys(pre), UsedKeys(es));
    }
  }

  lemma UsedStep(s: State, e: Event, used: set<Key>, used': set<Key>)
    requires Tidy(s) && TidyAllowed(s, e) && AllUsed(s, used) && used <= used'
    requires e.Accept? && e.r in s.arriving && e.r < |s.requests| ==> KeyOf(s, e.r) in used'
    ensures AllUsed(Apply(s, e), used')
  {
    forall t | t in LiveKeys(Apply(s, e)) ensures LiveKeys(Apply(s, e))[t] in used' { LiveKeysStep(s, e, t); }
    forall p | p in Flying(Apply(s, e)) ensures p.key.seqNo == 0 || p.key in used' {
      if p !in Flying(s) { FlyingStep(s, e, p); }
    }
  }

  /** In every run that keeps the plain rules there is no cross-talk, and `pending` holds exactly the
      keys of the tasks that wait. */
  lemma NeverReusingIsEnough(es: seq<Event>)
    requires PlainRules(es)
    ensures NoCrossTalk(Run(EMPTY, es).got)
    ensures TableFits(Run(EMPTY, es).tasks, LiveKeys(Run(EMPTY, es)), Run(EMPTY, es).pending, Run(EMPTY, es).inbox)
  {
    PlainRulesHold(es);
  }

  // ----- Concrete runs, three steps at a time -----

  /** After this run, which has kept the plain rules, the state and the used keys are these. */
  ghost predicate Reaches(es: seq<Event>, s: State, used: set<Key>) {
    PlainRules(es) && Run(EMPTY, es) == s && UsedKeys(es) == used
  }

  function UsedBy(s: State, e: Event): set<Key> {
    if e.Accept? && e.r in s.arriving && e.r < |s.requests| then {KeyOf(s, e.r)} else {}
  }

  /** One step within the plain rules. */
  ghost predicate Leads(s: State, used: set<Key>, e: Event, t: State, used': set<Key>) {
    Plain(s, used, e) && Apply(s, e) == t && used + UsedBy(s, e) == used'
  }

  lemma OneMore(es: seq<Event>, s: State, u: set<Key>, e: Event, t: State, v: set<Key>)
    requires Reaches(es, s, u) && Leads(s, u, e, t, v)
    ensures Reaches(es + [e], t, v)
  {
    assert (es + [e])[..|es|] == es;
  }

  lemma ThreeMore(es: seq<Event>, s0: State, u0: set<Key>, e1: Event, s1: State, u1: set<Key>,
                  e2: Event, s2: State, u2: set<Key>, e3: Event, s3: State, u3: set<Key>)
    requires Reaches(es, s0, u0)
    requires Leads(s0, u0, e1, s1, u1) && Leads(s1, u1, e2, s2, u2) && Leads(s2, u2, e3, s3, u3)
    ensures Reaches(es + [e1, e2, e3], s3, u3)
  {
    OneMore(es, s0, u0, e1, s1, u1);
    OneMore(es + [e1], s1, u1, e2, s2, u2);
    OneMore(es + [e1] + [e2], s2, u2, e3, s3, u3);
    assert es + [e1] + [e2] + [e3] == es + [e1, e2, e3];
  }

  // ----- What goes wrong without the rule -----

  /** Connection 0 gets conn_id 7 and has a first request answered on the spot; its second one is with
      the service when it drops. Connection 1 resumes conn_id 7 with its first request, seq 1, so its next
      request is seq 2 again. */
  const FIRST := [Bind(0, 7), Issue(0, 1), Reject(0)]
  const SECOND := FIRST + [Issue(0, 2), Accept(1), Register(1)]
  const THIRD := SECOND + [Send(1), Bind(1, 8), Issue(1, 1)]
  const RESUMING := THIRD + [Bind(1, 7), Reject(2), Issue(1, 2)]

  const R1 := EMPTY.(connId := map[0 := 7])
  const R2 := R1.(requests := [Request(0, 1)], awaiting := map[Request(0, 1) := 0], arriving := {0})
  const R3 := R2.(arriving := {}, toClient := {Response(0, 1, 0)})
  const R4 := R3.(requests := [Request(0, 1), Request(0, 2)],
                  awaiting := map[Request(0, 1) := 0, Request(0, 2) := 1], arriving := {1})
  const R5 := R4.(arriving := {}, tasks := map[1 := Routing])
  const R6 := R5.(tasks := map[1 := Registered(Key(7, 2))], pending := map[Key(7, 2) := 1])

  /** The second request is with the service. */
  function AtService(rs: seq<Request>, awaiting: map<Request, nat>, arriving: set<nat>, connId: map<nat, u32>, out: set<Response>): State {
    State(rs, awaiting, arriving, connId, {}, map[1 := Waiting(Key(7, 2))], map[Key(7, 2) := 1], map[],
          {Parcel(Key(7, 2), 1)}, {}, out, map[], multiset{})
  }

  const TWO := [Request(0, 1), Request(0, 2)]
  const THREE := [Request(0, 1), Request(0, 2), Request(1, 1)]
  const FOUR := [Request(0, 1), Request(0, 2), Request(1, 1), Request(1, 2)]
  const WAIT_TWO := map[Request(0, 1) := 0, Request(0, 2) := 1]
  const WAIT_THREE := map[Request(0, 1) := 0, Request(0, 2) := 1, Request(1, 1) := 2]
  const WAIT_FOUR := map[Request(0, 1) := 0, Request(0, 2) := 1, Request(1, 1) := 2, Request(1, 2) := 3]

  const R7 := AtService(TWO, WAIT_TWO, {}, map[0 := 7], {Response(0, 1, 0)})
  const R8 := AtService(TWO, WAIT_TWO, {}, map[0 := 7, 1 := 8], {Response(0, 1, 0)})
  const R9 := AtService(THREE, WAIT_THREE, {2}, map[0 := 7, 1 := 8], {Response(0, 1, 0)})
  const R10 := AtService(THREE, WAIT_THREE, {2}, map[0 := 7, 1 := 7], {Response(0, 1, 0)})
  const R11 := AtService(THREE, WAIT_THREE, {}, map[0 := 7, 1 := 7], {Response(0, 1, 0), Response(1, 1, 2)})
  const RESUMED := AtService(FOUR, WAIT_FOUR, {3}, map[0 := 7, 1 := 7], {Response(0, 1, 0), Response(1, 1, 2)})

  lemma StartSteps()
    ensures Leads(EMPTY, {}, Bind(0, 7), R1, {}) && Leads(R1, {}, Issue(0, 1), R2, {}) && Leads(R2, {}, Reject(0), R3, {})
  {}

  lemma RequestSteps()
    ensures Leads(R3, {}, Issue(0, 2), R4, {}) && Leads(R4, {}, Accept(1), R5, {Key(7, 2)})
    ensures Leads(R5, {Key(7, 2)}, Register(1), R6, {Key(7, 2)})
  {}

  lemma SendingStep()
    ensures Leads(R6, {Key(7, 2)}, Send(1), R7, {Key(7, 2)})
  {}

  lemma DropSteps()
    ensures Leads(R7, {Key(7, 2)}, Bind(1, 8), R8, {Key(7, 2)}) && Leads(R8, {Key(7, 2)}, Issue(1, 1), R9, {Key(7, 2)})
  {}

  lemma ResumeSteps()
    ensures Leads(R9, {Key(7, 2)}, Bind(1, 7), R10, {Key(7, 2)}) && Leads(R10, {Key(7, 2)}, Reject(2), R11, {Key(7, 2)})
  {}

  lemma NextStep()
    ensures Leads(R11, {Key(7, 2)}, Issue(1, 2), RESUMED, {Key(7, 2)})
  {}

  lemma ComesBack()
    ensures Reaches(RESUMING, RESUMED, {Key(7, 2)})
  {
    var u := {Key(7, 2)};
    StartSteps();
    ThreeMore([], EMPTY, {}, Bind(0, 7), R1, {}, Issue(0, 1), R2, {}, Reject(0), R3, {});
    assert [] + FIRST == FIRST;
    RequestSteps();
    ThreeMore(FIRST, R3, {}, Issue(0, 2), R4, {}, Accept(1), R5, u, Register(1), R6, u);
    SendingStep();
    DropSteps();
    ThreeMore(SECOND, R6, u, Send(1), R7, u, Bind(1, 8), R8, u, Issue(1, 1), R9, u);
    ResumeSteps();
    NextStep();
    ThreeMore(THIRD, R9, u, Bind(1, 7), R10, u, Reject(2), R11, u, Issue(1, 2), RESUMED, u);
  }

  lemma ResumedIsSafe()
    ensures Safe(RESUMED)
  {
    ComesBack();
    PlainRulesHold(RESUMING);
  }

  lemma ResumedCrosses() returns (es: seq<Event>)
    requires Safe(RESUMED)
    ensures OnlyDelivery(es) && !NoCrossTalk(Run(Apply(RESUMED, Accept(3)), es).got)
  {
    var p := Parcel(Key(7, 2), 1);
    assert p in Flying(RESUMED) && p.key == KeyOf(RESUMED, 3);
    es := BusyParcelCrosses(RESUMED, 3, p);
  }

  lemma ReuseIsNotPlain(es: seq<Event>)
    requires Reaches(es, RESUMED, {Key(7, 2)})
    ensures PlainRules(es) && !PlainStep(es, Accept(3))
  {
    assert KeyOf(RESUMED, 3) == Key(7, 2);
  }

  /** A client drops with a request under way; its new connection resumes the old conn_id and counts its
      seqs from 1 again. Up to here every plain rule is kept: each connection uses each seq once and is
      rebound only while idle. Accepting the next request is the first step against them, and then that
      request can receive the reply to the old one. */
  lemma ResumeCanCrossTalk()
    ensures PlainRules(RESUMING) && !PlainStep(RESUMING, Accept(3))
    ensures exists es :: OnlyDelivery(es) && !NoCrossTalk(Run(Apply(Run(EMPTY, RESUMING), Accept(3)), es).got)
  {
    ComesBack();
    ReuseIsNotPlain(RESUMING);
    ResumedIsSafe();
    var es := ResumedCrosses();
    assert Run(EMPTY, RESUMING) == RESUMED;
  }

  // ----- A reply that meets a closed channel -----

  const ENTRY := Key(7, 1)
  const REPLY := Parcel(ENTRY, 0)

  const ASKED := [Bind(0, 7), Issue(0, 1), Accept(0)]
  const SERVED := ASKED + [Register(0), Send(0), Serve(REPLY)]
  const CLOSED := SERVED + [Route(REPLY), CloseChannel(0), Finish(0)]

  /** One request of connection 0, and how far its task has come. */
  function OneTask(phase: Phase, pending: map<Key, nat>, inbox: map<nat, Parcel>, out: set<Parcel>, back: set<Parcel>): State {
    State([Request(0, 1)], map[Request(0, 1) := 0], {}, map[0 := 7], {}, map[0 := phase], pending, inbox, out, back, {},
          map[], multiset{})
  }

  const C3 := OneTask(Routing, map[], map[], {}, {})
  const C4 := OneTask(Registered(ENTRY), map[ENTRY := 0], map[], {}, {})
  const C5 := OneTask(Waiting(ENTRY), map[ENTRY := 0], map[], {REPLY}, {})
  const C6 := OneTask(Waiting(ENTRY), map[ENTRY := 0], map[], {}, {REPLY})
  const C7 := OneTask(Waiting(ENTRY), map[], map[0 := REPLY], {}, {})
  const C8 := C7.(closed := {0})
  const C9 := C8.(tasks := map[0 := Done(false, true)], attempts := multiset{0, 0})

  lemma AskSteps()
    ensures Leads(R2, {}, Accept(0), C3, {ENTRY}) && Leads(C3, {ENTRY}, Register(0), C4, {ENTRY})
  {}

  lemma AnswerSteps()
    ensures Leads(C4, {ENTRY}, Send(0), C5, {ENTRY}) && Leads(C5, {ENTRY}, Serve(REPLY), C6, {ENTRY})
  {}

  lemma CloseSteps()
    ensures Leads(C6, {ENTRY}, Route(REPLY), C7, {ENTRY}) && Leads(C7, {ENTRY}, CloseChannel(0), C8, {ENTRY})
  {}

  lemma FinishStep()
    ensures Leads(C8, {ENTRY}, Finish(0), C9, {ENTRY})
  {}

  lemma ClosedBeforeTheEnd()
    ensures Reaches(CLOSED, C9, {ENTRY})
  {
    var u := {ENTRY};
    StartSteps();
    AskSteps();
    ThreeMore([], EMPTY, {}, Bind(0, 7), R1, {}, Issue(0, 1), R2, {}, Accept(0), C3, u);
    assert [] + ASKED == ASKED;
    AnswerSteps();
    ThreeMore(ASKED, C3, u, Register(0), C4, u, Send(0), C5, u, Serve(REPLY), C6, u);
    CloseSteps();
    FinishStep();
    ThreeMore(SERVED, C6, u, Route(REPLY), C7, u, CloseChannel(0), C8, u, Finish(0), C9, u);
  }

  /** A run that keeps every rule, in which a reply arrives, the client leaves, and one finished task has
      made two Response attempts. */
  lemma SecondAttempt()
    ensures PlainRules(CLOSED) && TidyDisciplined(CLOSED)
    ensures var s := Run(EMPTY, CLOSED); 0 in s.tasks && s.tasks[0].Done? && s.attempts[0] == 2
  {
    ClosedBeforeTheEnd();
    PlainRulesHold(CLOSED);
  }
}
