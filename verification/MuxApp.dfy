/** The gateway's and the client's half of multiplexing as the program updates their tables
    (crates/grimoire-gateway/src/session.rs and stream.rs, crates/grimoire-sim/src/client.rs). */
module MuxApp {
  import opened Common
  import opened MuxModel

  // ----- What the objects say, as values -----

  /** One task and its channel. */
  datatype View = View(sess: nat, seqNo: u32, phase: Phase, listening: bool, reply: Option<Parcel>)

  predicate ShowsTask(s: State, r: nat, v: View) {
    && r < |s.requests| && s.requests[r] == Request(v.sess, v.seqNo)
    && r in s.tasks && s.tasks[r] == v.phase && (v.listening <==> !v.phase.Done?)
    && v.reply == (if r in s.inbox then Some(s.inbox[r]) else None)
  }

  /** The state describes these tasks and this table. */
  predicate Describes(s: State, views: map<nat, View>, entries: map<Key, nat>) {
    && s.tasks.Keys == views.Keys && s.inbox.Keys <= views.Keys && s.pending == entries
    && forall r <- views :: ShowsTask(s, r, views[r])
  }

  predicate SameElsewhere(s: State, t: State, r: nat, ph: Phase) {
    && t.requests == s.requests && t.closed == s.closed && t.connId == s.connId
    && t.tasks == s.tasks[r := ph] && (t.inbox == s.inbox || (r in t.inbox && t.inbox == s.inbox[r := t.inbox[r]]))
  }

  lemma OneTaskMoves(s: State, t: State, views: map<nat, View>, entries: map<Key, nat>, r: nat, v: View)
    requires Describes(s, views, entries) && SameElsewhere(s, t, r, v.phase) && ShowsTask(t, r, v)
    ensures Describes(t, views[r := v], t.pending)
  {
    var after := views[r := v];
    forall q | q in after ensures ShowsTask(t, q, after[q]) {
      if q != r {
        assert ShowsTask(s, q, views[q]);
      }
    }
  }

  lemma Accepted(s: State, views: map<nat, View>, entries: map<Key, nat>, r: nat, v: View)
    requires Describes(s, views, entries) && r in s.arriving && r !in s.tasks && r < |s.requests|
    requires v == View(s.requests[r].sess, s.requests[r].seqNo, Routing, true, None)
    ensures Describes(Apply(s, Accept(r)), views[r := v], entries) && SameBase(s, Apply(s, Accept(r)))
    ensures Apply(s, Accept(r)).closed == s.closed
  {
    OneTaskMoves(s, Apply(s, Accept(r)), views, entries, r, v);
  }

  lemma Entered(s: State, views: map<nat, View>, entries: map<Key, nat>, r: nat, k: Key)
    requires Describes(s, views, entries) && r in views && views[r].phase == Routing && r < |s.requests| && k == KeyOf(s, r)
    ensures var t := Apply(s, Register(r));
            && Describes(t, views[r := views[r].(phase := Registered(k))], entries[k := r])
            && SameBase(s, t) && t.closed == s.closed
  {
    EnterSteps(s, r);
    assert ShowsTask(s, r, views[r]);
    OneTaskMoves(s, DoRegister(s, r), views, entries, r, views[r].(phase := Registered(k)));
  }

  lemma HandedOver(s: State, views: map<nat, View>, entries: map<Key, nat>, r: nat)
    requires Describes(s, views, entries) && r in views && views[r].phase.Registered?
    ensures var k := views[r].phase.key; var t := Apply(s, MuxModel.Send(r));
            && Describes(t, views[r := views[r].(phase := Waiting(k))], entries)
            && t.toService == s.toService + {Parcel(k, r)} && SameBase(s, t) && t.closed == s.closed
  {
    EnterSteps(s, r);
    assert ShowsTask(s, r, views[r]);
    OneTaskMoves(s, DoSend(s, r), views, entries, r, views[r].(phase := Waiting(views[r].phase.key)));
  }

  lemma Arrived(s: State, views: map<nat, View>, entries: map<Key, nat>, p: Parcel)
    requires Describes(s, views, entries) && p in s.fromService && p.key in entries && entries[p.key] in views
    ensures var r := entries[p.key]; var v := views[r]; var t := Apply(s, Route(p));
            && Describes(t, views[r := if v.listening then v.(reply := Some(p)) else v], entries - {p.key})
            && SameBase(s, t) && t.closed == s.closed
  {
    ParcelSteps(s, p);
    var r := entries[p.key];
    var v := views[r];
    assert ShowsTask(s, r, v);
    OneTaskMoves(s, DoRoute(s, p), views, entries, r, if v.listening then v.(reply := Some(p)) else v);
  }

  lemma ArrivedForNobody(s: State, views: map<nat, View>, entries: map<Key, nat>, p: Parcel)
    requires Describes(s, views, entries) && p in s.fromService && p.key !in entries
    ensures var t := Apply(s, Route(p)); Describes(t, views, entries) && SameBase(s, t) && t.closed == s.closed
  {
    ParcelSteps(s, p);
    forall r | r in views ensures ShowsTask(DoRoute(s, p), r, views[r]) {
      assert ShowsTask(s, r, views[r]);
    }
  }

  /** What a task that ends puts out: its last frame, if any, and how many Response attempts it made. */
  ghost predicate Answers(s: State, t: State, r: nat, sent: Option<Response>, attempts: nat) {
    && t.toClient == s.toClient + (if sent.Some? then {sent.value} else {})
    && t.attempts == s.attempts[r := s.attempts[r] + attempts]
  }

  lemma FinishFields(s: State, r: nat, open: bool)
    requires Live(s, r) && s.tasks[r].Waiting? && r in s.inbox && open == (s.requests[r].sess !in s.closed)
    ensures var t := DoFinish(s, r);
            && SameElsewhere(s, t, r, Done(open, true)) && t.inbox == s.inbox
            && t.pending == (if open then s.pending else s.pending - {KeyOf(s, r)})
            && Answers(s, t, r, if open then Some(Response(s.requests[r].sess, s.inbox[r].key.seqNo, s.inbox[r].origin)) else None,
                       if open then 1 else 2)
  {
    if !open {
      assert s.attempts + multiset{r, r} == s.attempts[r := s.attempts[r] + 2];
    }
  }

  lemma AbortFields(s: State, r: nat, open: bool)
    requires Live(s, r) && open == (s.requests[r].sess !in s.closed)
    ensures var t := DoAbort(s, r);
            && SameElsewhere(s, t, r, Done(open, false)) && t.inbox == s.inbox && t.pending == s.pending - {KeyOf(s, r)}
            && Answers(s, t, r, if open then Some(Response(s.requests[r].sess, s.requests[r].seqNo, r)) else None, 1)
  {}

  lemma Finished(s: State, views: map<nat, View>, entries: map<Key, nat>, r: nat, k: Key, open: bool)
    requires Describes(s, views, entries) && r in views && views[r].phase.Waiting? && views[r].reply.Some?
    requires r < |s.requests| && k == KeyOf(s, r) && open == (s.requests[r].sess !in s.closed)
    ensures var t := Apply(s, Finish(r)); var v := views[r]; var reply := v.reply.value;
            && Describes(t, views[r := v.(phase := Done(open, true), listening := false)], if open then entries else entries - {k})
            && Answers(s, t, r, if open then Some(Response(v.sess, reply.key.seqNo, reply.origin)) else None,
                       if open then 1 else 2)
            && SameBase(s, t) && t.closed == s.closed
  {
    var v := views[r];
    assert ShowsTask(s, r, v);
    EndSteps(s, r);
    FinishFields(s, r, open);
    OneTaskMoves(s, DoFinish(s, r), views, entries, r, v.(phase := Done(open, true), listening := false));
  }

  lemma Aborted(s: State, views: map<nat, View>, entries: map<Key, nat>, r: nat, k: Key, open: bool)
    requires Describes(s, views, entries) && r in views && !views[r].phase.Done?
    requires r < |s.requests| && k == KeyOf(s, r) && open == (s.requests[r].sess !in s.closed)
    ensures var t := Apply(s, Abort(r)); var v := views[r];
            && Describes(t, views[r := v.(phase := Done(open, false), listening := false)], entries - {k})
            && Answers(s, t, r, if open then Some(Response(v.sess, v.seqNo, r)) else None, 1)
            && SameBase(s, t) && t.closed == s.closed
  {
    var v := views[r];
    assert ShowsTask(s, r, v);
    EndSteps(s, r);
    AbortFields(s, r, open);
    OneTaskMoves(s, DoAbort(s, r), views, entries, r, v.(phase := Done(open, false), listening := false));
  }

  // ----- The objects -----

  /** A client connection: the id it goes by, and whether its outgoing channel is open. */
  class Session {
    const number: nat
    var connId: u32
    var open: bool

    constructor (number: nat, connId: u32)
      ensures this.number == number && this.connId == connId && open
    {
      this.number, this.connId, open := number, connId, true;
    }

    /** Put one response frame on the channel; nothing goes out when it is closed. */
    method Send(seqNo: u32, origin: nat) returns (sent: Option<Response>)
      ensures sent == if open then Some(Response(number, seqNo, origin)) else None
    {
      sent := if open then Some(Response(number, seqNo, origin)) else None;
    }

    ghost predicate IsShownBy(s: State)
      reads this
    {
      ConnOf(s, number) == connId && (open <==> number !in s.closed)
    }
  }

  /** One forwarded request with its one-shot channel. Its number stands for its payload. */
  class Task {
    const number: nat
    const session: Session
    const seqNo: u32
    var phase: Phase
    var listening: bool
    var reply: Option<Parcel>

    constructor (number: nat, session: Session, seqNo: u32)
      ensures this.number == number && this.session == session && this.seqNo == seqNo
      ensures AsView() == View(session.number, seqNo, Routing, true, None)
    {
      this.number, this.session, this.seqNo := number, session, seqNo;
      phase, listening, reply := Routing, true, None;
    }

    function CurrentKey(): Key
      reads session
    {
      Key(session.connId, seqNo)
    }

    ghost function AsView(): View
      reads this
    {
      View(session.number, seqNo, phase, listening, reply)
    }

    /** The sending half of the channel: nothing arrives once the task has stopped listening. */
    method Deliver(p: Parcel)
      modifies this`reply
      ensures AsView() == var v := old(AsView()); if v.listening then v.(reply := Some(p)) else v
    {
      if listening {
        reply := Some(p);
      }
    }

    method MoveOn(phase: Phase)
      modifies this`phase
      ensures AsView() == old(AsView()).(phase := phase)
    {
      this.phase := phase;
    }

    /** The task is over, and with it the receiving half of its channel. */
    method Stop(sent: bool, hadReply: bool)
      modifies this`phase, this`listening
      ensures AsView() == old(AsView()).(phase := Done(sent, hadReply), listening := false)
    {
      phase, listening := Done(sent, hadReply), false;
    }
  }

  /** The gateway's table of waiting tasks. A state of the model describes it together with everything
      around it; each method is one atomic action of a task, the reply reader or a read loop. */
  class Streams {
    /** (conn_id, seq) -> the task whose channel waits for that reply. */
    var pending: map<Key, Task>
    /** The tasks the runtime has spawned. */
    ghost var tasks: map<nat, Task>

    constructor ()
      ensures Shows(MuxModel.EMPTY)
    {
      pending, tasks := map[], map[];
    }

    ghost predicate Valid()
      reads this
    {
      && (forall r <- tasks :: tasks[r].number == r)
      && (forall k <- pending :: Runs(pending[k]))
    }

    ghost predicate Runs(t: Task)
      reads this
    {
      t.number in tasks && tasks[t.number] == t
    }

    ghost function Views(): map<nat, View>
      reads this, tasks.Values
    {
      map r | r in tasks :: tasks[r].AsView()
    }

    ghost function Entries(): map<Key, nat>
      reads this
    {
      map k | k in pending :: pending[k].number
    }

    /** The state describes these objects. */
    ghost predicate Shows(s: State)
      reads this, tasks.Values
    {
      Valid() && Describes(s, Views(), Entries())
    }

    /** What a shown state says about a task and its connection. */
    lemma Known(s: State, t: Task)
      requires Shows(s) && Runs(t) && t.session.IsShownBy(s)
      ensures t.number in Views() && Views()[t.number] == t.AsView()
      ensures t.number < |s.requests| && t.CurrentKey() == KeyOf(s, t.number)
      ensures t.session.open == (s.requests[t.number].sess !in s.closed)
    {
      assert ShowsTask(s, t.number, Views()[t.number]);
    }

    /** What a shown state becomes when a task is entered under its current key. */
    lemma EntryIsRegister(s: State, t: Task)
      requires Shows(s) && Runs(t) && t.session.IsShownBy(s) && t.phase.Routing?
      ensures Describes(Apply(s, Register(t.number)), Views()[t.number := t.AsView().(phase := Registered(t.CurrentKey()))],
                        Entries()[t.CurrentKey() := t.number])
    {
      Known(s, t);
      Entered(s, Views(), Entries(), t.number, t.CurrentKey());
    }

    // What happens to one task or one entry.

    method Spawn(r: nat, session: Session, seqNo: u32) returns (t: Task)
      requires Valid() && r !in tasks
      modifies this`tasks
      ensures Valid() && Runs(t) && fresh(t) && t.number == r && t.phase == Routing
      ensures Entries() == old(Entries()) && Views() == old(Views())[r := View(session.number, seqNo, Routing, true, None)]
    {
      t := new Task(r, session, seqNo);
      tasks := tasks[r := t];
    }

    method MoveOn(t: Task, phase: Phase)
      requires Valid() && Runs(t)
      modifies t`phase
      ensures Valid() && Entries() == old(Entries()) && t.phase == phase
      ensures Views() == old(Views())[t.number := old(t.AsView()).(phase := phase)]
    {
      t.MoveOn(phase);
    }

    method Stop(t: Task, sent: bool, hadReply: bool)
      requires Valid() && Runs(t)
      modifies t`phase, t`listening
      ensures Valid() && Entries() == old(Entries()) && t.phase == Done(sent, hadReply) && !t.listening
      ensures Views() == old(Views())[t.number := old(t.AsView()).(phase := Done(sent, hadReply), listening := false)]
    {
      t.Stop(sent, hadReply);
    }

    method Deliver(t: Task, p: Parcel)
      requires Valid() && Runs(t)
      modifies t`reply
      ensures Valid() && Entries() == old(Entries())
      ensures t.reply == if t.listening then Some(p) else old(t.reply)
      ensures var v := old(t.AsView()); Views() == old(Views())[t.number := if v.listening then v.(reply := Some(p)) else v]
    {
      t.Deliver(p);
    }

    method PutEntry(key: Key, t: Task)
      requires Valid() && Runs(t)
      modifies this`pending
      ensures Valid() && Views() == old(Views()) && Entries() == old(Entries())[key := t.number]
      ensures pending == old(pending)[key := t]
    {
      pending := pending[key := t];
    }

    method DropEntry(key: Key)
      requires Valid()
      modifies this`pending
      ensures Valid() && Views() == old(Views()) && Entries() == old(Entries()) - {key} && pending == old(pending) - {key}
    {
      pending := pending - {key};
    }

    // The atomic actions.

    /** The read loop takes a request frame and spawns its task. */
    method ReadFrame(ghost s: State, r: nat, session: Session, seqNo: u32) returns (t: Task)
      requires Shows(s) && session.IsShownBy(s)
      requires r in s.arriving && r !in s.tasks && r < |s.requests| && s.requests[r] == Request(session.number, seqNo)
      modifies this`tasks
      ensures Shows(Apply(s, Accept(r))) && Runs(t) && t.phase == Routing
    {
      Accepted(s, Views(), Entries(), r, View(session.number, seqNo, Routing, true, None));
      t := Spawn(r, session, seqNo);
    }

    method Enter(ghost s: State, t: Task)
      requires Shows(s) && Runs(t) && t.session.IsShownBy(s) && t.phase.Routing?
      modifies this`pending, t`phase
      ensures Shows(Apply(s, Register(t.number)))
      ensures var key := Key(t.session.connId, t.seqNo); pending == old(pending)[key := t] && t.phase == Registered(key)
    {
      var key := t.CurrentKey();
      EntryIsRegister(s, t);
      PutEntry(key, t);
      MoveOn(t, Registered(key));
    }

    /** The request goes onto the stream to the service. */
    method HandOver(ghost s: State, t: Task) returns (request: Parcel)
      requires Shows(s) && Runs(t) && t.session.IsShownBy(s) && t.phase.Registered?
      modifies t`phase
      ensures Shows(Apply(s, MuxModel.Send(t.number)))
      ensures Apply(s, MuxModel.Send(t.number)).toService == s.toService + {request}
      ensures request == Parcel(old(t.phase).key, t.number) && t.phase == Waiting(request.key)
    {
      Known(s, t);
      HandedOver(s, Views(), Entries(), t.number);
      request := Parcel(t.phase.key, t.number);
      MoveOn(t, Waiting(t.phase.key));
    }

    /** The reader of a stream gets one reply: whoever waits under its key gets it, if still listening. */
    method ReplyArrives(ghost s: State, p: Parcel)
      requires Shows(s) && p in s.fromService
      modifies this`pending, pending.Values
      ensures Shows(Apply(s, Route(p))) && pending == old(pending) - {p.key}
      ensures p.key in old(pending) && old(pending)[p.key].listening ==> old(pending)[p.key].reply == Some(p)
    {
      if p.key in pending {
        var t := pending[p.key];
        Arrived(s, Views(), Entries(), p);
        DropEntry(p.key);
        Deliver(t, p);
      } else {
        ArrivedForNobody(s, Views(), Entries(), p);
      }
    }

    /** The error path: clear the entry under the current key, answer with an error, stop listening. */
    method Fail(t: Task, hadReply: bool) returns (sent: Option<Response>)
      requires Valid() && Runs(t)
      modifies this`pending, t`phase, t`listening
      ensures Valid() && Entries() == old(Entries()) - {t.CurrentKey()}
      ensures pending == old(pending) - {Key(t.session.connId, t.seqNo)} && t.phase == Done(t.session.open, hadReply)
      ensures Views() == old(Views())[t.number := old(t.AsView()).(phase := Done(t.session.open, hadReply), listening := false)]
      ensures sent == if t.session.open then Some(Response(t.session.number, t.seqNo, t.number)) else None
    {
      DropEntry(t.CurrentKey());
      sent := t.session.Send(t.seqNo, t.number);
      Stop(t, sent.Some?, hadReply);
    }

    /** Send the reply, and run the error path if it was refused. */
    method Conclude(t: Task) returns (sent: Option<Response>, attempts: nat)
      requires Valid() && Runs(t) && t.reply.Some?
      modifies this`pending, t`phase, t`listening
      ensures Valid() && attempts == if t.session.open then 1 else 2
      ensures Views() == old(Views())[t.number := old(t.AsView()).(phase := Done(t.session.open, true), listening := false)]
      ensures Entries() == if t.session.open then old(Entries()) else old(Entries()) - {t.CurrentKey()}
      ensures var reply := old(t.reply.value);
              sent == if t.session.open then Some(Response(t.session.number, reply.key.seqNo, reply.origin)) else None
    {
      sent := t.session.Send(t.reply.value.key.seqNo, t.reply.value.origin);
      if sent.Some? {
        Stop(t, true, true);
        return sent, 1;
      }
      sent := Fail(t, true);
      return sent, 2;
    }

    /** The task has its reply: it goes onto the session's channel, and if that is closed, the error path
        runs and is refused as well. */
    method FinishTask(ghost s: State, t: Task) returns (sent: Option<Response>, attempts: nat)
      requires Shows(s) && Runs(t) && t.session.IsShownBy(s) && t.phase.Waiting? && t.reply.Some?
      modifies this`pending, t`phase, t`listening
      ensures Shows(Apply(s, Finish(t.number)))
      ensures Answers(s, Apply(s, Finish(t.number)), t.number, sent, attempts)
      ensures attempts == if t.session.open then 1 else 2
      ensures var reply := old(t.reply.value);
              sent == if t.session.open then Some(Response(t.session.number, reply.key.seqNo, reply.origin)) else None
    {
      Known(s, t);
      Finished(s, Views(), Entries(), t.number, t.CurrentKey(), t.session.open);
      sent, attempts := Conclude(t);
    }

    /** No node, no stream, or no reply in time. */
    method AbortTask(ghost s: State, t: Task) returns (sent: Option<Response>)
      requires Shows(s) && Runs(t) && t.session.IsShownBy(s) && !t.phase.Done?
      modifies this`pending, t`phase, t`listening
      ensures Shows(Apply(s, Abort(t.number)))
      ensures Answers(s, Apply(s, Abort(t.number)), t.number, sent, 1)
      ensures sent == if t.session.open then Some(Response(t.session.number, t.seqNo, t.number)) else None
      ensures pending == old(pending) - {Key(t.session.connId, t.seqNo)}
    {
      Known(s, t);
      Aborted(s, Views(), Entries(), t.number, t.CurrentKey(), t.session.open);
      sent := Fail(t, false);
    }
  }

  // ----- The client's seq counter -----

  class Client {
    /** The shared counter counts calls; a seq is its low 32 bits. */
    var counter: nat
    /** seq -> the request waiting for that response. */
    var responses: map<u32, nat>

    constructor ()
      ensures counter == 1 && responses == map[]
    {
      counter, responses := 1, map[];
    }

    method Issue(request: nat) returns (n: u32)
      modifies this
      ensures n == SeqOf(old(counter)) == old(counter) % 0x1_0000_0000 && counter == old(counter) + 1
      ensures responses == old(responses)[n := request]
    {
      n := counter % TWO_32;
      counter := counter + 1;
      responses := responses[n := request];
    }

    /** A response frame arrives: whoever waits under its seq is woken and leaves the table. */
    method OnResponse(n: u32) returns (woken: Option<nat>)
      modifies this
      ensures counter == old(counter) && responses == old(responses) - {n}
      ensures woken == if n in old(responses) then Some(old(responses)[n]) else None
    {
      if n in responses {
        woken := Some(responses[n]);
        responses := responses - {n};
      } else {
        woken := None;
        assert responses == responses - {n};
      }
    }
  }

  function SeqOf(call: nat): u32 {
    call % TWO_32
  }

  /** A client's first `calls` seqs are all different and none is 0 exactly while fewer than 2^32 requests
      have been issued. */
  lemma ClientSeqsAreFresh(calls: nat)
    ensures (forall i, j :: 1 <= i < j <= calls ==> SeqOf(i) != SeqOf(j)) && (forall i :: 1 <= i <= calls ==> SeqOf(i) != 0)
            <==> calls < 0x1_0000_0000
  {
    if calls >= TWO_32 {
      assert SeqOf(TWO_32) == 0;
    }
  }
}
