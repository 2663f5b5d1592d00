/** Request multiplexing: clients, gateway tasks and services share streams, and replies are paired with
    requests by (conn_id, seq) alone (crates/grimoire-gateway/src/session.rs and stream.rs,
    crates/grimoire-sim/src/client.rs).

    Each step below is one atomic action of one participant, and a run is any sequence of steps, so
    replies may be reordered, delayed or lost. Requests are numbered as they are issued; the number of
    a request stands for its payload, and a reply carries the number of the request it was computed
    from. No step ever looks at these numbers to decide what to do. */
module MuxModel {
  import opened Common

  datatype Key = Key(conn: u32, seqNo: u32)

  /** One client request: the physical connection it was sent on and its seq. */
  datatype Request = Request(sess: nat, seqNo: u32)

  /** A forwarded request, or the reply computed from it: services copy the key. */
  datatype Parcel = Parcel(key: Key, origin: nat)

  /** A response frame on its way to a client. */
  datatype Response = Response(sess: nat, seqNo: u32, origin: nat)

  /** A forward task: choosing a node, entered in `pending`, request handed to the stream, finished. */
  datatype Phase = Routing | Registered(key: Key) | Waiting(key: Key) | Done(sent: bool, hadReply: bool)

  datatype State = State(
    requests: seq<Request>,
    awaiting: map<Request, nat>,
    arriving: set<nat>,
    connId: map<nat, u32>,
    closed: set<nat>,
    tasks: map<nat, Phase>,
    pending: map<Key, nat>,
    inbox: map<nat, Parcel>,
    toService: set<Parcel>,
    fromService: set<Parcel>,
    toClient: set<Response>,
    got: map<nat, nat>,
    attempts: multiset<nat>)

  datatype Event =
    | Bind(sess: nat, conn: u32)
    | CloseChannel(sess: nat)
    | Issue(sess: nat, seqNo: u32)
    | Datagram(sess: nat)
    | Accept(r: nat)
    | Reject(r: nat)
    | Register(r: nat)
    | Send(r: nat)
    | Serve(p: Parcel)
    | Drop(p: Parcel)
    | Route(p: Parcel)
    | Finish(r: nat)
    | Abort(r: nat)
    | Receive(m: Response)

  const EMPTY := State([], map[], {}, map[], {}, map[], map[], map[], {}, {}, {}, map[], multiset{})

  function ConnOf(s: State, sess: nat): u32 {
    if sess in s.connId then s.connId[sess] else 0
  }

  function KeyOf(s: State, r: nat): Key
    requires r < |s.requests|
  {
    Key(ConnOf(s, s.requests[r].sess), s.requests[r].seqNo)
  }

  predicate Live(s: State, r: nat) {
    r in s.tasks && !s.tasks[r].Done? && r < |s.requests|
  }

  /** The step leaves the request ledger and the connection numbers alone. */
  ghost predicate SameBase(s: State, t: State) {
    t.requests == s.requests && t.connId == s.connId
  }

  /** The step leaves the forward tasks and what belongs to them alone. */
  ghost predicate SameTasks(s: State, t: State) {
    t.tasks == s.tasks && t.pending == s.pending && t.inbox == s.inbox && t.attempts == s.attempts
  }

  /** The step puts nothing on the streams between gateway and services, and takes nothing off. */
  ghost predicate SameTraffic(s: State, t: State) {
    t.toService == s.toService && t.fromService == s.fromService
  }

  /** The task is choosing a node for a request of this connection, so it has no key yet. */
  predicate ChoosingOn(s: State, sess: nat, t: nat) {
    Live(s, t) && s.tasks[t].Routing? && s.requests[t].sess == sess
  }

  function Rebound(s: State, sess: nat, c: u32): State {
    s.(connId := s.connId[sess := c])
  }

  // ----- The client -----

  /** A request takes a seq, waits under it in the client's table, and its frame sets off. */
  function DoIssue(s: State, q: Request): State {
    var r := |s.requests|;
    s.(requests := s.requests + [q], awaiting := s.awaiting[q := r], arriving := s.arriving + {r})
  }

  /** A response wakes whichever request waits under its seq, and is dropped if none does. */
  function DoReceive(s: State, m: Response): (t: State)
    ensures SameBase(s, t) && SameTraffic(s, t) && SameTasks(s, t) && t.arriving == s.arriving
  {
    if m !in s.toClient then s
    else
      var s1 := s.(toClient := s.toClient - {m});
      var q := Request(m.sess, m.seqNo);
      if q !in s.awaiting then s1
      else s1.(awaiting := s.awaiting - {q}, got := s.got[s.awaiting[q] := m.origin])
  }

  // ----- The gateway's read loop -----

  function DoAccept(s: State, r: nat): (t: State)
    ensures SameBase(s, t) && SameTraffic(s, t)
  {
    if r !in s.arriving then s
    else s.(arriving := s.arriving - {r}, tasks := s.tasks[r := Routing])
  }

  /** The frame is answered on the spot: a system message or an unauthorised request. */
  function DoReject(s: State, r: nat): (t: State)
    ensures SameBase(s, t) && SameTraffic(s, t) && SameTasks(s, t) && t.arriving <= s.arriving
  {
    if r !in s.arriving || r >= |s.requests| then s
    else Respond(s.(arriving := s.arriving - {r}), s.requests[r], s.requests[r].seqNo, r)
  }

  function Respond(s: State, q: Request, seqNo: u32, origin: nat): (t: State)
    ensures SameBase(s, t) && SameTraffic(s, t) && SameTasks(s, t) && t.arriving == s.arriving
  {
    if q.sess in s.closed then s else s.(toClient := s.toClient + {Response(q.sess, seqNo, origin)})
  }

  /** A one-way UDP request: forwarded with seq 0, nobody waits for its reply. */
  function DoDatagram(s: State, sess: nat): State {
    s.(requests := s.requests + [Request(sess, 0)],
       toService := s.toService + {Parcel(Key(ConnOf(s, sess), 0), |s.requests|)})
  }

  // ----- A forward task -----

  function DoRegister(s: State, r: nat): (t: State)
    ensures SameBase(s, t) && SameTraffic(s, t)
  {
    if !Live(s, r) || !s.tasks[r].Routing? then s
    else s.(pending := s.pending[KeyOf(s, r) := r], tasks := s.tasks[r := Registered(KeyOf(s, r))])
  }

  function DoSend(s: State, r: nat): (t: State)
    ensures SameBase(s, t)
  {
    if !Live(s, r) || !s.tasks[r].Registered? then s
    else
      var k := s.tasks[r].key;
      s.(toService := s.toService + {Parcel(k, r)}, tasks := s.tasks[r := Waiting(k)])
  }

  /** The reply is in hand and goes to the session's channel; if that is closed, the error path runs. */
  function DoFinish(s: State, r: nat): (t: State)
    ensures SameBase(s, t) && SameTraffic(s, t)
  {
    if !Live(s, r) || !s.tasks[r].Waiting? || r !in s.inbox then s
    else
      var q := s.requests[r];
      var sent := q.sess !in s.closed;
      var s1 := Respond(s.(tasks := s.tasks[r := Done(sent, true)]), q, s.inbox[r].key.seqNo, s.inbox[r].origin);
      if sent then s1.(attempts := s.attempts + multiset{r})
      else s1.(attempts := s.attempts + multiset{r, r}, pending := s.pending - {KeyOf(s, r)})
  }

  /** Any failure, or the timeout: clear the entry under the current key and answer with an error. */
  function DoAbort(s: State, r: nat): (t: State)
    ensures SameBase(s, t) && SameTraffic(s, t)
  {
    if !Live(s, r) then s
    else
      var q := s.requests[r];
      Respond(s.(tasks := s.tasks[r := Done(q.sess !in s.closed, false)], pending := s.pending - {KeyOf(s, r)},
                 attempts := s.attempts + multiset{r}),
              q, q.seqNo, r)
  }

  // ----- Service and reply reader -----

  function DoServe(s: State, p: Parcel): (t: State)
    ensures SameBase(s, t) && SameTasks(s, t) && t.arriving == s.arriving
  {
    if p !in s.toService then s
    else s.(toService := s.toService - {p}, fromService := s.fromService + {p})
  }

  /** The stream loses the parcel. */
  function DoDrop(s: State, p: Parcel): (t: State)
    ensures SameBase(s, t) && SameTasks(s, t) && t.arriving == s.arriving
  {
    s.(toService := s.toService - {p}, fromService := s.fromService - {p})
  }

  /** The reader hands the reply to the task entered under its key; a finished task has stopped listening. */
  function DoRoute(s: State, p: Parcel): (t: State)
    ensures SameBase(s, t)
  {
    if p !in s.fromService then s
    else
      var s1 := s.(fromService := s.fromService - {p});
      if p.key !in s.pending then s1
      else
        var r := s.pending[p.key];
        s1.(pending := s.pending - {p.key}, inbox := if Live(s, r) then s.inbox[r := p] else s.inbox)
  }

  function Apply(s: State, e: Event): State {
    match e
    case Bind(sess, c) => Rebound(s, sess, c)
    case CloseChannel(sess) => s.(closed := s.closed + {sess})
    case Issue(sess, n) => DoIssue(s, Request(sess, n))
    case Datagram(sess) => DoDatagram(s, sess)
    case Accept(r) => DoAccept(s, r)
    case Reject(r) => DoReject(s, r)
    case Register(r) => DoRegister(s, r)
    case Send(r) => DoSend(s, r)
    case Serve(p) => DoServe(s, p)
    case Drop(p) => DoDrop(s, p)
    case Route(p) => DoRoute(s, p)
    case Finish(r) => DoFinish(s, r)
    case Abort(r) => DoAbort(s, r)
    case Receive(m) => DoReceive(s, m)
  }

  function Run(s: State, es: seq<Event>): State
    decreases |es|
  {
    if es == [] then s else Apply(Run(s, es[..|es| - 1]), es[|es| - 1])
  }

  // ----- The discipline -----

  function Flying(s: State): set<Parcel> {
    s.toService + s.fromService
  }

  /** The tasks that may still hand their request to a stream, with the key they would use. */
  function Senders(s: State): map<nat, Key> {
    map t | t in s.tasks && Live(s, t) && !s.tasks[t].Waiting? ::
      if s.tasks[t].Registered? then s.tasks[t].key else KeyOf(s, t)
  }

  ghost predicate KeyUnused(flying: set<Parcel>, senders: map<nat, Key>, k: Key) {
    && (forall p :: p in flying ==> p.key != k)
    && (forall t :: t in senders ==> senders[t] != k)
  }

  /** Nothing with this key is between gateway and services, or about to be. */
  ghost predicate SenderFree(s: State, k: Key) {
    KeyUnused(Flying(s), Senders(s), k)
  }

  /** Nobody uses the keys that such tasks would get with the new conn_id. */
  ghost predicate RebindFree(s: State, sess: nat, c: u32) {
    forall t: nat :: ChoosingOn(s, sess, t) ==> KeyUnusedByOthers(Rebound(s, sess, c), t)
  }

  ghost predicate KeyUnusedByOthers(s: State, r: nat)
    requires r < |s.requests|
  {
    && (forall p :: p in Flying(s) ==> p.key != KeyOf(s, r))
    && (forall t :: t in Senders(s) && t != r ==> Senders(s)[t] != KeyOf(s, r))
  }

  /** A client uses each seq of a connection once and never uses 0; a request is accepted, and a connection
      rebound, only when no other traffic uses the keys this gives to tasks. */
  ghost predicate Allowed(s: State, e: Event) {
    match e
    case Issue(sess, n) => n != 0 && Request(sess, n) !in s.requests
    case Accept(r) => r in s.arriving && r < |s.requests| ==> SenderFree(s, KeyOf(s, r))
    case Bind(sess, c) => RebindFree(s, sess, c)
    case _ => true
  }

  ghost predicate Disciplined(es: seq<Event>)
    decreases |es|
  {
    es == [] || (Disciplined(es[..|es| - 1]) && Allowed(Run(EMPTY, es[..|es| - 1]), es[|es| - 1]))
  }

  // ----- The invariant, in four parts that each look at only a few fields -----

  /** Bookkeeping of the request numbers. */
  ghost predicate Numbered(rs: seq<Request>, arriving: set<nat>, started: set<nat>, awaiting: map<Request, nat>) {
    && (forall r: nat :: r in arriving ==> r < |rs| && r !in started && rs[r].seqNo != 0 && rs[r] in awaiting)
    && (forall r: nat :: r in started ==> r < |rs| && rs[r].seqNo != 0)
    && (forall q :: q in awaiting ==> q.seqNo != 0 && awaiting[q] < |rs| && rs[awaiting[q]] == q)
    && NoSeqTwice(rs)
  }

  ghost predicate NoSeqTwice(rs: seq<Request>) {
    forall i, j :: 0 <= i < j < |rs| && rs[i].seqNo != 0 ==> rs[i] != rs[j]
  }

  /** Every parcel under way would reach its own task. */
  ghost predicate Matched(rs: seq<Request>, arriving: set<nat>, started: set<nat>, pending: map<Key, nat>, flying: set<Parcel>) {
    && (forall k :: k in pending ==> pending[k] in started && pending[k] < |rs| && k.seqNo == rs[pending[k]].seqNo)
    && (forall p :: p in flying && p.key in pending ==> pending[p.key] == p.origin)
    && (forall p :: p in flying ==> p.origin !in arriving && p.origin < |rs|)
  }

  /** No two tasks may send under one key, and none under the key of a parcel under way. */
  ghost predicate Apart(rs: seq<Request>, flying: set<Parcel>, senders: map<nat, Key>) {
    && (forall t, p :: t in senders && p in flying ==> p.key != senders[t])
    && (forall t, u :: t in senders && u in senders && t != u ==> senders[t] != senders[u])
    && (forall t :: t in senders ==> t < |rs| && senders[t].seqNo == rs[t].seqNo)
    && (forall p :: p in flying ==> p.origin !in senders)
  }

  /** The entry of a registered task, while it is there, is its own. */
  ghost predicate EntriesOwn(tasks: map<nat, Phase>, pending: map<Key, nat>) {
    forall t :: t in tasks && tasks[t].Registered? && tasks[t].key in pending ==> pending[tasks[t].key] == t
  }

  /** Replies in hand, responses under way and responses received are each for the right request. */
  ghost predicate RightAnswers(rs: seq<Request>, arriving: set<nat>, started: set<nat>, inbox: map<nat, Parcel>,
                               toClient: set<Response>, got: map<nat, nat>) {
    && (forall r :: r in inbox ==> r < |rs| && r in started && inbox[r].origin == r && inbox[r].key.seqNo == rs[r].seqNo)
    && (forall m :: m in toClient ==> m.origin < |rs| && m.origin !in arriving && rs[m.origin] == Request(m.sess, m.seqNo))
    && NoCrossTalk(got)
  }

  /** Whatever a request received was computed from that same request. */
  ghost predicate NoCrossTalk(got: map<nat, nat>) {
    forall r :: r in got ==> got[r] == r
  }

  ghost predicate Safe(s: State) {
    && Numbered(s.requests, s.arriving, s.tasks.Keys, s.awaiting)
    && Matched(s.requests, s.arriving, s.tasks.Keys, s.pending, Flying(s))
    && Apart(s.requests, Flying(s), Senders(s))
    && EntriesOwn(s.tasks, s.pending)
    && RightAnswers(s.requests, s.arriving, s.tasks.Keys, s.inbox, s.toClient, s.got)
  }

  // ----- How each part survives a change -----

  ghost predicate Within<K, V>(a: map<K, V>, b: map<K, V>) {
    forall k :: k in a ==> k in b && a[k] == b[k]
  }

  lemma NumberedStart(rs: seq<Request>, arriving: set<nat>, started: set<nat>, awaiting: map<Request, nat>, r: nat)
    requires Numbered(rs, arriving, started, awaiting) && r in arriving
    ensures Numbered(rs, arriving - {r}, started + {r}, awaiting)
    ensures Numbered(rs, arriving - {r}, started, awaiting)
  {}

  lemma NumberedWake(rs: seq<Request>, arriving: set<nat>, started: set<nat>, awaiting: map<Request, nat>, q: Request)
    requires Numbered(rs, arriving, started, awaiting) && q in awaiting && awaiting[q] !in arriving
    ensures Numbered(rs, arriving, started, awaiting - {q})
  {
    forall r: nat | r in arriving ensures rs[r] != q {
      if r < awaiting[q] || awaiting[q] < r {
        assert NoSeqTwice(rs);
      }
    }
  }

  lemma MatchedLess(rs: seq<Request>, arriving: set<nat>, started: set<nat>, pending: map<Key, nat>, flying: set<Parcel>,
                    arriving': set<nat>, started': set<nat>, pending': map<Key, nat>, flying': set<Parcel>)
    requires Matched(rs, arriving, started, pending, flying)
    requires arriving' <= arriving && started <= started' && Within(pending', pending) && flying' <= flying
    ensures Matched(rs, arriving', started', pending', flying')
  {}

  lemma MatchedRegister(rs: seq<Request>, arriving: set<nat>, started: set<nat>, pending: map<Key, nat>, flying: set<Parcel>, k: Key, r: nat)
    requires Matched(rs, arriving, started, pending, flying)
    requires forall p :: p in flying ==> p.key != k
    requires r in started && r < |rs| && k.seqNo == rs[r].seqNo
    ensures Matched(rs, arriving, started, pending[k := r], flying)
  {}

  lemma MatchedSend(rs: seq<Request>, arriving: set<nat>, started: set<nat>, pending: map<Key, nat>, flying: set<Parcel>, k: Key, r: nat)
    requires Matched(rs, arriving, started, pending, flying)
    requires k in pending ==> pending[k] == r
    requires r < |rs| && r !in arriving
    ensures Matched(rs, arriving, started, pending, flying + {Parcel(k, r)})
  {}

  lemma ApartLess(rs: seq<Request>, flying: set<Parcel>, senders: map<nat, Key>, flying': set<Parcel>, senders': map<nat, Key>)
    requires Apart(rs, flying, senders) && flying' <= flying && Within(senders', senders)
    ensures Apart(rs, flying', senders')
  {}

  lemma ApartAccept(rs: seq<Request>, flying: set<Parcel>, senders: map<nat, Key>, r: nat, k: Key)
    requires Apart(rs, flying, senders) && KeyUnused(flying, senders, k)
    requires r < |rs| && k.seqNo == rs[r].seqNo && forall p :: p in flying ==> p.origin != r
    ensures Apart(rs, flying, senders[r := k])
  {}

  lemma ApartSend(rs: seq<Request>, flying: set<Parcel>, senders: map<nat, Key>, r: nat)
    requires Apart(rs, flying, senders) && r in senders
    ensures Apart(rs, flying + {Parcel(senders[r], r)}, senders - {r})
  {}

  lemma AnswersLess(rs: seq<Request>, arriving: set<nat>, started: set<nat>, inbox: map<nat, Parcel>, toClient: set<Response>,
                    got: map<nat, nat>, arriving': set<nat>, started': set<nat>, toClient': set<Response>)
    requires RightAnswers(rs, arriving, started, inbox, toClient, got)
    requires arriving' <= arriving && started <= started' && toClient' <= toClient
    ensures RightAnswers(rs, arriving', started', inbox, toClient', got)
  {}

  lemma AnswersRespond(rs: seq<Request>, arriving: set<nat>, started: set<nat>, inbox: map<nat, Parcel>, toClient: set<Response>,
                       got: map<nat, nat>, m: Response)
    requires RightAnswers(rs, arriving, started, inbox, toClient, got)
    requires m.origin < |rs| && m.origin !in arriving && rs[m.origin] == Request(m.sess, m.seqNo)
    ensures RightAnswers(rs, arriving, started, inbox, toClient + {m}, got)
  {}

  lemma AnswersInbox(rs: seq<Request>, arriving: set<nat>, started: set<nat>, inbox: map<nat, Parcel>, toClient: set<Response>,
                     got: map<nat, nat>, r: nat, p: Parcel)
    requires RightAnswers(rs, arriving, started, inbox, toClient, got)
    requires r < |rs| && r in started && p.origin == r && p.key.seqNo == rs[r].seqNo
    ensures RightAnswers(rs, arriving, started, inbox[r := p], toClient, got)
  {}

  // ----- One more request in the ledger -----

  lemma SendersIgnoreNewRequests(s: State, t: State, q: Request)
    requires t.requests == s.requests + [q] && t.tasks == s.tasks && t.connId == s.connId
    requires forall r: nat :: r in s.tasks ==> r < |s.requests|
    ensures Senders(t) == Senders(s)
  {}

  lemma NumberedIssue(rs: seq<Request>, arriving: set<nat>, started: set<nat>, awaiting: map<Request, nat>, q: Request)
    requires Numbered(rs, arriving, started, awaiting) && q.seqNo != 0 && q !in rs
    ensures Numbered(rs + [q], arriving + {|rs|}, started, awaiting[q := |rs|])
  {}

  lemma NumberedDatagram(rs: seq<Request>, arriving: set<nat>, started: set<nat>, awaiting: map<Request, nat>, q: Request)
    requires Numbered(rs, arriving, started, awaiting) && q.seqNo == 0
    ensures Numbered(rs + [q], arriving, started, awaiting)
  {}

  lemma MatchedMore(rs: seq<Request>, arriving: set<nat>, started: set<nat>, pending: map<Key, nat>, flying: set<Parcel>, q: Request)
    requires Matched(rs, arriving, started, pending, flying)
    ensures Matched(rs + [q], arriving + {|rs|}, started, pending, flying)
    ensures Matched(rs + [q], arriving, started, pending, flying)
  {}

  lemma MatchedDatagram(rs: seq<Request>, arriving: set<nat>, started: set<nat>, pending: map<Key, nat>, flying: set<Parcel>, p: Parcel)
    requires Matched(rs, arriving, started, pending, flying)
    requires p.key !in pending && p.origin !in arriving && p.origin < |rs|
    ensures Matched(rs, arriving, started, pending, flying + {p})
  {}

  lemma ApartMore(rs: seq<Request>, flying: set<Parcel>, senders: map<nat, Key>, q: Request)
    requires Apart(rs, flying, senders)
    ensures Apart(rs + [q], flying, senders)
  {}

  lemma ApartDatagram(rs: seq<Request>, flying: set<Parcel>, senders: map<nat, Key>, p: Parcel)
    requires Apart(rs, flying, senders) && p.origin !in senders && forall t :: t in senders ==> p.key != senders[t]
    ensures Apart(rs, flying + {p}, senders)
  {}

  lemma AnswersMore(rs: seq<Request>, arriving: set<nat>, started: set<nat>, inbox: map<nat, Parcel>, toClient: set<Response>,
                    got: map<nat, nat>, q: Request)
    requires RightAnswers(rs, arriving, started, inbox, toClient, got)
    ensures RightAnswers(rs + [q], arriving + {|rs|}, started, inbox, toClient, got)
    ensures RightAnswers(rs + [q], arriving, started, inbox, toClient, got)
  {}

  lemma IssueSafe(s: State, q: Request)
    requires Safe(s) && q.seqNo != 0 && q !in s.requests
    ensures Safe(DoIssue(s, q))
  {
    var t := DoIssue(s, q);
    SendersIgnoreNewRequests(s, t, q);
    NumberedIssue(s.requests, s.arriving, s.tasks.Keys, s.awaiting, q);
    MatchedMore(s.requests, s.arriving, s.tasks.Keys, s.pending, Flying(s), q);
    ApartMore(s.requests, Flying(s), Senders(s), q);
    AnswersMore(s.requests, s.arriving, s.tasks.Keys, s.inbox, s.toClient, s.got, q);
  }

  lemma ZeroIsNobodys(s: State, c: u32)
    requires Safe(s)
    ensures Key(c, 0) !in s.pending && |s.requests| !in Senders(s)
    ensures forall t :: t in Senders(s) ==> Senders(s)[t] != Key(c, 0)
  {}

  lemma DatagramSafe(s: State, sess: nat)
    requires Safe(s)
    ensures Safe(DoDatagram(s, sess))
  {
    var t, q := DoDatagram(s, sess), Request(sess, 0);
    var p := Parcel(Key(ConnOf(s, sess), 0), |s.requests|);
    SendersIgnoreNewRequests(s, t, q);
    FlyingWith(s, t, p);
    ZeroIsNobodys(s, ConnOf(s, sess));
    NumberedDatagram(s.requests, s.arriving, s.tasks.Keys, s.awaiting, q);
    MatchedMore(s.requests, s.arriving, s.tasks.Keys, s.pending, Flying(s), q);
    MatchedDatagram(t.requests, s.arriving, s.tasks.Keys, s.pending, Flying(s), p);
    ApartMore(s.requests, Flying(s), Senders(s), q);
    ApartDatagram(t.requests, Flying(s), Senders(s), p);
    AnswersMore(s.requests, s.arriving, s.tasks.Keys, s.inbox, s.toClient, s.got, q);
  }

  lemma FlyingWith(s: State, t: State, p: Parcel)
    requires t.toService == s.toService + {p} && t.fromService == s.fromService
    ensures Flying(t) == Flying(s) + {p}
  {}

  // ----- The read loop -----

  lemma AcceptFrame(s: State, r: nat)
    requires r in s.arriving && r < |s.requests| && r !in s.tasks
    ensures var t := DoAccept(s, r);
            t.tasks.Keys == s.tasks.Keys + {r} && Senders(t) == Senders(s)[r := KeyOf(s, r)] && Flying(t) == Flying(s)
  {}

  lemma OtherPhasesKeepEntries(tasks: map<nat, Phase>, pending: map<Key, nat>, r: nat, ph: Phase)
    requires EntriesOwn(tasks, pending) && !ph.Registered?
    ensures EntriesOwn(tasks[r := ph], pending)
  {}

  lemma AcceptSafe(s: State, r: nat)
    requires Safe(s) && (r in s.arriving && r < |s.requests| ==> SenderFree(s, KeyOf(s, r)))
    ensures Safe(DoAccept(s, r))
  {
    if r in s.arriving {
      var t := DoAccept(s, r);
      AcceptFrame(s, r);
      OtherPhasesKeepEntries(s.tasks, s.pending, r, Routing);
      NumberedStart(s.requests, s.arriving, s.tasks.Keys, s.awaiting, r);
      MatchedLess(s.requests, s.arriving, s.tasks.Keys, s.pending, Flying(s), t.arriving, t.tasks.Keys, t.pending, Flying(t));
      ApartAccept(s.requests, Flying(s), Senders(s), r, KeyOf(s, r));
      AnswersLess(s.requests, s.arriving, s.tasks.Keys, s.inbox, s.toClient, s.got, t.arriving, t.tasks.Keys, t.toClient);
    }
  }

  lemma RespondFrame(s: State, q: Request, n: u32, origin: nat)
    ensures var t := Respond(s, q, n, origin); Senders(t) == Senders(s) && Flying(t) == Flying(s)
  {}

  /** Putting a correct response on the wire. */
  lemma RespondSafe(s: State, q: Request, n: u32, origin: nat)
    requires Safe(s) && origin < |s.requests| && origin !in s.arriving
    requires s.requests[origin] == q && q.seqNo == n
    ensures Safe(Respond(s, q, n, origin))
  {
    RespondFrame(s, q, n, origin);
    AnswersRespond(s.requests, s.arriving, s.tasks.Keys, s.inbox, s.toClient, s.got, Response(q.sess, n, origin));
  }

  lemma TakeSafe(s: State, r: nat)
    requires Safe(s) && r in s.arriving
    ensures Safe(s.(arriving := s.arriving - {r}))
  {
    var t := s.(arriving := s.arriving - {r});
    SendersSee(s, t);
    NumberedStart(s.requests, s.arriving, s.tasks.Keys, s.awaiting, r);
    MatchedLess(s.requests, s.arriving, s.tasks.Keys, s.pending, Flying(s), t.arriving, t.tasks.Keys, t.pending, Flying(t));
    AnswersLess(s.requests, s.arriving, s.tasks.Keys, s.inbox, s.toClient, s.got, t.arriving, t.tasks.Keys, t.toClient);
  }

  lemma RejectSafe(s: State, r: nat)
    requires Safe(s)
    ensures Safe(DoReject(s, r))
  {
    if r in s.arriving && r < |s.requests| {
      var t := s.(arriving := s.arriving - {r});
      TakeSafe(s, r);
      RespondSafe(t, s.requests[r], s.requests[r].seqNo, r);
      assert DoReject(s, r) == Respond(t, s.requests[r], s.requests[r].seqNo, r);
    }
  }

  // ----- A forward task -----

  lemma RegisterKeepsEntries(tasks: map<nat, Phase>, pending: map<Key, nat>, r: nat, k: Key)
    requires EntriesOwn(tasks, pending)
    requires forall u :: u in tasks && u != r && tasks[u].Registered? ==> tasks[u].key != k
    ensures EntriesOwn(tasks[r := Registered(k)], pending[k := r])
  {}

  lemma SendersHaveOwnKeys(s: State, r: nat, u: nat)
    requires Safe(s) && r in Senders(s) && u in s.tasks && u != r && s.tasks[u].Registered?
    ensures s.tasks[u].key != Senders(s)[r]
  {
    assert Senders(s)[u] == s.tasks[u].key;
  }

  lemma RegisterFrame(s: State, r: nat)
    requires Live(s, r) && s.tasks[r].Routing?
    ensures r in Senders(s) && Senders(s)[r] == KeyOf(s, r)
    ensures var t := DoRegister(s, r); t.tasks.Keys == s.tasks.Keys && Senders(t) == Senders(s) && Flying(t) == Flying(s)
  {}

  lemma RegisterSafe(s: State, r: nat)
    requires Safe(s)
    ensures Safe(DoRegister(s, r))
  {
    if Live(s, r) && s.tasks[r].Routing? {
      var t, k := DoRegister(s, r), KeyOf(s, r);
      RegisterFrame(s, r);
      forall u | u in s.tasks && u != r && s.tasks[u].Registered? ensures s.tasks[u].key != k {
        SendersHaveOwnKeys(s, r, u);
      }
      RegisterKeepsEntries(s.tasks, s.pending, r, k);
      MatchedRegister(s.requests, s.arriving, s.tasks.Keys, s.pending, Flying(s), k, r);
    }
  }

  lemma SendFrame(s: State, r: nat)
    requires Live(s, r) && s.tasks[r].Registered?
    ensures r in Senders(s) && Senders(s)[r] == s.tasks[r].key
    ensures var t := DoSend(s, r);
            && t.tasks.Keys == s.tasks.Keys && Senders(t) == Senders(s) - {r}
            && Flying(t) == Flying(s) + {Parcel(s.tasks[r].key, r)}
  {}

  lemma SendSafe(s: State, r: nat)
    requires Safe(s)
    ensures Safe(DoSend(s, r))
  {
    if Live(s, r) && s.tasks[r].Registered? {
      var t, k := DoSend(s, r), s.tasks[r].key;
      SendFrame(s, r);
      OtherPhasesKeepEntries(s.tasks, s.pending, r, Waiting(k));
      MatchedSend(s.requests, s.arriving, s.tasks.Keys, s.pending, Flying(s), k, r);
      ApartSend(s.requests, Flying(s), Senders(s), r);
    }
  }

  /** s after task r has ended, perhaps clearing the entry under k. */
  function Ended(s: State, r: nat, ph: Phase, clear: bool, k: Key, attempts: multiset<nat>): State {
    s.(tasks := s.tasks[r := ph], pending := if clear then s.pending - {k} else s.pending, attempts := attempts)
  }

  lemma EndFrame(s: State, r: nat, ph: Phase, clear: bool, k: Key, attempts: multiset<nat>)
    requires r in s.tasks && ph.Done?
    ensures var t := Ended(s, r, ph, clear, k, attempts);
            && t.tasks.Keys == s.tasks.Keys && Within(Senders(t), Senders(s)) && Flying(t) == Flying(s)
            && Within(t.pending, s.pending)
  {}

  lemma FewerEntriesOwn(tasks: map<nat, Phase>, pending: map<Key, nat>, fewer: map<Key, nat>)
    requires EntriesOwn(tasks, pending) && Within(fewer, pending)
    ensures EntriesOwn(tasks, fewer)
  {}

  lemma EndSafe(s: State, r: nat, ph: Phase, clear: bool, k: Key, attempts: multiset<nat>)
    requires Safe(s) && r in s.tasks && ph.Done?
    ensures Safe(Ended(s, r, ph, clear, k, attempts))
  {
    var t := Ended(s, r, ph, clear, k, attempts);
    EndFrame(s, r, ph, clear, k, attempts);
    OtherPhasesKeepEntries(s.tasks, s.pending, r, ph);
    FewerEntriesOwn(t.tasks, s.pending, t.pending);
    MatchedLess(s.requests, s.arriving, s.tasks.Keys, s.pending, Flying(s), t.arriving, t.tasks.Keys, t.pending, Flying(t));
    ApartLess(s.requests, Flying(s), Senders(s), Flying(t), Senders(t));
  }

  lemma FinishIsEnd(s: State, r: nat, sent: bool, attempts: multiset<nat>)
    requires Live(s, r) && s.tasks[r].Waiting? && r in s.inbox && sent == (s.requests[r].sess !in s.closed)
    requires attempts == if sent then s.attempts + multiset{r} else s.attempts + multiset{r, r}
    ensures DoFinish(s, r) == Respond(Ended(s, r, Done(sent, true), !sent, KeyOf(s, r), attempts),
                                      s.requests[r], s.inbox[r].key.seqNo, s.inbox[r].origin)
  {}

  lemma ReplyInHand(s: State, r: nat)
    requires Safe(s) && r in s.tasks && r in s.inbox
    ensures r < |s.requests| && r !in s.arriving && s.inbox[r].origin == r && s.inbox[r].key.seqNo == s.requests[r].seqNo
  {}

  lemma FinishSafe(s: State, r: nat)
    requires Safe(s)
    ensures Safe(DoFinish(s, r))
  {
    if Live(s, r) && s.tasks[r].Waiting? && r in s.inbox {
      var sent := s.requests[r].sess !in s.closed;
      var attempts := if sent then s.attempts + multiset{r} else s.attempts + multiset{r, r};
      ReplyInHand(s, r);
      EndSafe(s, r, Done(sent, true), !sent, KeyOf(s, r), attempts);
      RespondSafe(Ended(s, r, Done(sent, true), !sent, KeyOf(s, r), attempts), s.requests[r], s.inbox[r].key.seqNo, r);
      FinishIsEnd(s, r, sent, attempts);
    }
  }

  lemma AbortSafe(s: State, r: nat)
    requires Safe(s)
    ensures Safe(DoAbort(s, r))
  {
    if Live(s, r) {
      var q := s.requests[r];
      var ph, attempts := Done(q.sess !in s.closed, false), s.attempts + multiset{r};
      EndSafe(s, r, ph, true, KeyOf(s, r), attempts);
      var ended := Ended(s, r, ph, true, KeyOf(s, r), attempts);
      RespondSafe(ended, q, q.seqNo, r);
      assert DoAbort(s, r) == Respond(ended, q, q.seqNo, r);
    }
  }

  // ----- Services, the reply reader, the client -----

  lemma FewerParcelsSafe(s: State, t: State)
    requires Safe(s) && Flying(t) <= Flying(s)
    requires t == s.(toService := t.toService, fromService := t.fromService)
    ensures Safe(t)
  {
    assert Senders(t) == Senders(s);
    MatchedLess(s.requests, s.arriving, s.tasks.Keys, s.pending, Flying(s), t.arriving, t.tasks.Keys, t.pending, Flying(t));
    ApartLess(s.requests, Flying(s), Senders(s), Flying(t), Senders(t));
  }

  lemma ServeFrame(s: State, p: Parcel)
    ensures var t := DoServe(s, p);
            Flying(t) == Flying(s) && t == s.(toService := t.toService, fromService := t.fromService)
  {}

  lemma ServeSafe(s: State, p: Parcel)
    requires Safe(s)
    ensures Safe(DoServe(s, p))
  {
    ServeFrame(s, p);
    FewerParcelsSafe(s, DoServe(s, p));
  }

  lemma DropSafe(s: State, p: Parcel)
    requires Safe(s)
    ensures Safe(DoDrop(s, p))
  {
    FewerParcelsSafe(s, DoDrop(s, p));
  }

  /** Moving one entry's reply into its task's inbox. */
  lemma HandOverSafe(s: State, p: Parcel)
    requires Safe(s) && p.key in s.pending && s.pending[p.key] == p.origin
    ensures Safe(s.(pending := s.pending - {p.key}, inbox := s.inbox[p.origin := p]))
    ensures Safe(s.(pending := s.pending - {p.key}))
  {
    var fewer := s.pending - {p.key};
    var t := s.(pending := fewer);
    var u := t.(inbox := s.inbox[p.origin := p]);
    SendersSee(s, t);
    SendersSee(s, u);
    FewerEntriesOwn(s.tasks, s.pending, fewer);
    MatchedLess(s.requests, s.arriving, s.tasks.Keys, s.pending, Flying(s), s.arriving, s.tasks.Keys, fewer, Flying(s));
    AnswersInbox(s.requests, s.arriving, s.tasks.Keys, s.inbox, s.toClient, s.got, p.origin, p);
  }

  /** Who may send depends on the requests, the tasks and the connection numbers only. */
  lemma SendersSee(s: State, t: State)
    requires t.requests == s.requests && t.tasks == s.tasks && t.connId == s.connId
    ensures Senders(t) == Senders(s)
  {}

  lemma RouteSafe(s: State, p: Parcel)
    requires Safe(s)
    ensures Safe(DoRoute(s, p))
  {
    if p in s.fromService {
      var s1 := s.(fromService := s.fromService - {p});
      FewerParcelsSafe(s, s1);
      if p.key in s.pending {
        assert p in Flying(s);
        HandOverSafe(s1, p);
      }
    }
  }

  lemma AnswersGot(rs: seq<Request>, arriving: set<nat>, started: set<nat>, inbox: map<nat, Parcel>, toClient: set<Response>,
                   got: map<nat, nat>, r: nat)
    requires RightAnswers(rs, arriving, started, inbox, toClient, got)
    ensures RightAnswers(rs, arriving, started, inbox, toClient, got[r := r])
  {}

  lemma ArrivedSafe(s: State, m: Response)
    requires Safe(s)
    ensures Safe(s.(toClient := s.toClient - {m}))
  {
    var t := s.(toClient := s.toClient - {m});
    SendersSee(s, t);
    AnswersLess(s.requests, s.arriving, s.tasks.Keys, s.inbox, s.toClient, s.got, s.arriving, s.tasks.Keys, t.toClient);
  }

  lemma WakeSafe(s: State, q: Request)
    requires Safe(s) && q in s.awaiting && s.awaiting[q] !in s.arriving
    ensures Safe(s.(awaiting := s.awaiting - {q}, got := s.got[s.awaiting[q] := s.awaiting[q]]))
  {
    SendersSee(s, s.(awaiting := s.awaiting - {q}, got := s.got[s.awaiting[q] := s.awaiting[q]]));
    NumberedWake(s.requests, s.arriving, s.tasks.Keys, s.awaiting, q);
    AnswersGot(s.requests, s.arriving, s.tasks.Keys, s.inbox, s.toClient, s.got, s.awaiting[q]);
  }

  lemma ReceiveSafe(s: State, m: Response)
    requires Safe(s)
    ensures Safe(DoReceive(s, m))
  {
    if m in s.toClient {
      ArrivedSafe(s, m);
      var q := Request(m.sess, m.seqNo);
      if q in s.awaiting {
        WakesItsOwn(s, m);
        WakeSafe(s.(toClient := s.toClient - {m}), q);
      }
    }
  }

  lemma WakesItsOwn(s: State, m: Response)
    requires Safe(s) && m in s.toClient && Request(m.sess, m.seqNo) in s.awaiting
    ensures s.awaiting[Request(m.sess, m.seqNo)] == m.origin && m.origin !in s.arriving
  {
    SameNumber(s.requests, s.awaiting[Request(m.sess, m.seqNo)], m.origin);
  }

  lemma SameNumber(rs: seq<Request>, i: nat, j: nat)
    requires NoSeqTwice(rs) && i < |rs| && j < |rs| && rs[i] == rs[j] && rs[i].seqNo != 0
    ensures i == j
  {}

  lemma BindSafe(s: State, sess: nat, c: u32)
    requires Safe(s) && RebindFree(s, sess, c)
    ensures Safe(Rebound(s, sess, c))
  {
    RebindFrame(s, sess, c);
    var moved := set t | t in Senders(s) && ChoosingOn(s, sess, t);
    ApartRebind(s.requests, Flying(s), Senders(s), Senders(Rebound(s, sess, c)), moved);
  }

  lemma RebindFrame(s: State, sess: nat, c: u32)
    ensures var r := Rebound(s, sess, c);
            && Senders(r).Keys == Senders(s).Keys && Flying(r) == Flying(s)
            && forall t :: t in Senders(s) ==>
                 Senders(r)[t] == if ChoosingOn(s, sess, t) then KeyOf(r, t) else Senders(s)[t]
  {}

  lemma ApartRebind(rs: seq<Request>, flying: set<Parcel>, senders: map<nat, Key>, senders': map<nat, Key>, moved: set<nat>)
    requires Apart(rs, flying, senders) && senders'.Keys == senders.Keys
    requires forall t :: t in senders && t !in moved ==> senders'[t] == senders[t]
    requires forall t :: t in moved && t in senders' ==> senders'[t].seqNo == rs[t].seqNo
    requires forall t, p :: t in moved && t in senders' && p in flying ==> p.key != senders'[t]
    requires forall t, u :: t in moved && t in senders' && u in senders' && t != u ==> senders'[t] != senders'[u]
    ensures Apart(rs, flying, senders')
  {}

  lemma CloseSafe(s: State, sess: nat)
    requires Safe(s)
    ensures Safe(Apply(s, CloseChannel(sess)))
  {
    SendersSee(s, Apply(s, CloseChannel(sess)));
  }

  lemma EnterSteps(s: State, r: nat)
    ensures Apply(s, Register(r)) == DoRegister(s, r) && Apply(s, Send(r)) == DoSend(s, r)
  {}

  lemma EndSteps(s: State, r: nat)
    ensures Apply(s, Finish(r)) == DoFinish(s, r) && Apply(s, Abort(r)) == DoAbort(s, r)
  {}

  lemma ParcelSteps(s: State, p: Parcel)
    ensures Apply(s, Serve(p)) == DoServe(s, p) && Apply(s, Drop(p)) == DoDrop(s, p) && Apply(s, Route(p)) == DoRoute(s, p)
  {}

  lemma ReceiveStep(s: State, m: Response)
    ensures Apply(s, Receive(m)) == DoReceive(s, m)
  {}

  lemma TaskStepSafe(s: State, e: Event)
    requires Safe(s) && (e.Register? || e.Send? || e.Finish? || e.Abort?)
    ensures Safe(Apply(s, e))
  {
    EnterSteps(s, e.r);
    EndSteps(s, e.r);
    match e
    case Register(r) => RegisterSafe(s, r);
    case Send(r) => SendSafe(s, r);
    case Finish(r) => FinishSafe(s, r);
    case Abort(r) => AbortSafe(s, r);
  }

  lemma TrafficStepSafe(s: State, e: Event)
    requires Safe(s) && (e.Serve? || e.Drop? || e.Route? || e.Receive?)
    ensures Safe(Apply(s, e))
  {
    if e.Receive? {
      ReceiveStep(s, e.m);
      ReceiveSafe(s, e.m);
    } else {
      ParcelSteps(s, e.p);
      match e
      case Serve(p) => ServeSafe(s, p);
      case Drop(p) => DropSafe(s, p);
      case Route(p) => RouteSafe(s, p);
    }
  }

  lemma EdgeStepSafe(s: State, e: Event)
    requires Safe(s) && Allowed(s, e)
    requires e.Bind? || e.CloseChannel? || e.Issue? || e.Datagram? || e.Accept? || e.Reject?
    ensures Safe(Apply(s, e))
  {
    match e
    case Bind(sess, c) => BindSafe(s, sess, c);
    case CloseChannel(sess) => CloseSafe(s, sess);
    case Issue(sess, n) => IssueSafe(s, Request(sess, n));
    case Datagram(sess) => DatagramSafe(s, sess);
    case Accept(r) => AcceptSafe(s, r);
    case Reject(r) => RejectSafe(s, r);
  }

  lemma StepSafe(s: State, e: Event)
    requires Safe(s) && Allowed(s, e)
    ensures Safe(Apply(s, e))
  {
    if e.Register? || e.Send? || e.Finish? || e.Abort? {
      TaskStepSafe(s, e);
    } else if e.Serve? || e.Drop? || e.Route? || e.Receive? {
      TrafficStepSafe(s, e);
    } else {
      EdgeStepSafe(s, e);
    }
  }

  /** In every disciplined run, any reply a client request receives was computed from that request. */
  lemma {:induction false} RepliesReachTheirRequests(es: seq<Event>)
    requires Disciplined(es)
    ensures Safe(Run(EMPTY, es)) && NoCrossTalk(Run(EMPTY, es).got)
    decreases |es|
  {
    if es != [] {
      RepliesReachTheirRequests(es[..|es| - 1]);
      StepSafe(Run(EMPTY, es[..|es| - 1]), es[|es| - 1]);
    }
  }
}
