/** The signaling relay of server/signaling-server.js as a state machine.

    The server keeps one ordered list of live connections, `clients`, and reacts
    to four events: a connection is accepted, a connection delivers a frame, a
    connection closes, a connection reports an error. Node's event loop runs each
    handler to completion, so each event is one atomic transition. Everything the
    server does is visible in two places: the list and the log of every `send`
    made (recipient, value). `readyState === WebSocket.OPEN` is decided by the
    environment at the moment of the event and is given as the set `open`. */
module Relay {

  import opened Wrappers
  import opened Json
  import opened Seqs

  /** A connection, known to the relay only by its identity (`===` on sockets). */
  datatype ConnId = ConnId(id: nat)

  /** One `send`: the recipient and the value it serialises. */
  type Send = (ConnId, Value)

  datatype State = State(clients: seq<ConnId>, outbox: seq<Send>)

  /** `let clients = []` and nothing sent yet. */
  const Initial: State := State([], [])

  datatype Event =
    | Connect(ws: ConnId)
    /** `parsed` is the outcome of `JSON.parse` on the frame: `None` when it threw. */
    | Message(ws: ConnId, parsed: Option<Value>, open: set<ConnId>)
    | Close(ws: ConnId, open: set<ConnId>)
    | Error(ws: ConnId)

  /** The predicate of `clients.filter((client) => client !== ws)`. */
  function Others(ws: ConnId): ConnId -> bool
  {
    c => c != ws
  }

  /** The guard of the `peer-disconnected` broadcast. */
  function IsOpen(open: set<ConnId>): ConnId -> bool
  {
    c => c in open
  }

  /** The guard of the forwarding loop: not the sender, and OPEN. */
  function RelayTo(ws: ConnId, open: set<ConnId>): ConnId -> bool
  {
    c => c != ws && c in open
  }

  /** One `send` of `m` to each of `targets`, in order. */
  function Fanout(targets: seq<ConnId>, m: Value): (r: seq<Send>)
    ensures Recipients(r) == targets
    ensures forall s <- r :: s.1 == m
  {
    seq(|targets|, i requires 0 <= i < |targets| => (targets[i], m))
  }

  lemma FanoutAppend(a: seq<ConnId>, b: seq<ConnId>, m: Value)
    ensures Fanout(a + b, m) == Fanout(a, m) + Fanout(b, m)
  {
  }

  /** Who the sends of `out` go to, in order. */
  function Recipients(out: seq<Send>): seq<ConnId>
  {
    seq(|out|, i requires 0 <= i < |out| => out[i].0)
  }

  /** What the `message` handler does as written: either it completes, having
      sent `sent`, or it throws out of the handler. */
  datatype Outcome = Completed(sent: seq<Send>) | Threw

  /** The log line of the `message` handler throws on `data`: reading `.type`
      of `null` throws, and so does the template literal's string conversion of
      a `type` that cannot be converted. An object or array `type` is truthy, so
      the `||` fallback never saves it; a falsy or primitive `type` converts. */
  predicate LogLineThrows(data: Value)
  {
    data.Null? || (Member(data, "type").Some? && StringConversionThrows(Member(data, "type").value))
  }

  /** The `message` handler as written. A frame `JSON.parse` rejects is dropped
      by the `catch`. A frame on which the log line throws passes the `try`,
      and the TypeError then leaves the handler before anything is sent. Any
      other value is re-serialised and sent to every other OPEN client in
      list order, whatever its fields are; engine size limits are not
      modelled. */
  function MessageAsWritten(clients: seq<ConnId>, ws: ConnId, parsed: Option<Value>, open: set<ConnId>): (r: Outcome)
    ensures r.Threw? <==> parsed.Some? && LogLineThrows(parsed.value)
    ensures r.Completed? ==>
      forall s <- r.sent :: parsed == Some(s.1) && s.0 in clients && s.0 != ws && s.0 in open
  {
    match parsed
    case None => Completed([])
    case Some(data) =>
      if LogLineThrows(data) then Threw
      else
        var targets := Filter(clients, RelayTo(ws, open));
        var sent := Fanout(targets, data);
        assert forall s <- sent :: s.0 in clients && RelayTo(ws, open)(s.0) by {
          forall s <- sent ensures s.0 in clients && RelayTo(ws, open)(s.0) {
            var i :| 0 <= i < |sent| && sent[i] == s;
            assert Recipients(sent)[i] == s.0;
            FilterMembers(clients, RelayTo(ws, open), s.0);
          }
        }
        Completed(sent)
  }

  /** The list after an event: only a connect adds to it, and only the accepted
      socket; close and error take their socket out. */
  function NextClients(clients: seq<ConnId>, e: Event): (r: seq<ConnId>)
    ensures |r| <= |clients| + 1
    ensures forall c <- r :: c in clients || e == Connect(c)
    ensures (e.Close? || e.Error?) ==> e.ws !in r
  {
    match e
    case Connect(ws) => clients + [ws]
    case Message(_, _, _) => clients
    case Close(ws, _) => RemovalKeepsOthers(clients, ws, ws); Filter(clients, Others(ws))
    case Error(ws) => RemovalKeepsOthers(clients, ws, ws); Filter(clients, Others(ws))
  }

  /** The sends an event makes, given the list before it. A `message` whose
      handler would throw is dropped like one that fails to parse. Every send
      goes to a connection that is in the list once the event is handled. */
  function Emitted(clients: seq<ConnId>, e: Event): (r: seq<Send>)
    ensures forall s <- r :: s.0 in NextClients(clients, e)
  {
    match e
    case Connect(ws) => [(ws, ConnectedNotice(|clients| + 1))]
    case Message(ws, parsed, open) =>
      (match MessageAsWritten(clients, ws, parsed, open)
       case Completed(sent) => sent
       case Threw => [])
    case Close(ws, open) =>
      var after := NextClients(clients, e);
      var sent := Fanout(Filter(after, IsOpen(open)), PeerDisconnectedNotice());
      assert forall s <- sent :: s.0 in after by {
        forall s <- sent ensures s.0 in after {
          var i :| 0 <= i < |sent| && sent[i] == s;
          assert Recipients(sent)[i] == s.0;
          FilterMembers(after, IsOpen(open), s.0);
        }
      }
      sent
    case Error(_) => []
  }

  /** One event, run to completion. The log only grows, and what it gains goes
      to connections in the new list. */
  function Step(st: State, e: Event): (r: State)
    ensures |r.clients| <= |st.clients| + 1
    ensures |st.outbox| <= |r.outbox| && r.outbox[..|st.outbox|] == st.outbox
    ensures forall s <- r.outbox[|st.outbox|..] :: s.0 in r.clients
  {
    var r := State(NextClients(st.clients, e), st.outbox + Emitted(st.clients, e));
    assert r.outbox[|st.outbox|..] == Emitted(st.clients, e);
    r
  }

  /** The state after a sequence of events from server start. The list never
      outgrows the number of events, and it holds, and the log was sent to,
      only connections that were accepted. */
  function Run(events: seq<Event>): (r: State)
    ensures |r.clients| <= |events|
    ensures forall c <- r.clients :: c in ConnectedIds(events)
    ensures forall s <- r.outbox :: s.0 in ConnectedIds(events)
  {
    if events == [] then Initial
    else
      var before := Run(events[..|events| - 1]);
      var r := Step(before, events[|events| - 1]);
      assert forall s <- r.outbox :: s.0 in ConnectedIds(events) by {
        forall s <- r.outbox ensures s.0 in ConnectedIds(events) {
          var i :| 0 <= i < |r.outbox| && r.outbox[i] == s;
          if i < |before.outbox| {
            assert s in before.outbox;
          } else {
            assert s in r.outbox[|before.outbox|..];
          }
        }
      }
      r
  }

  // ---------------------------------------------------------------- connect

  /** The new connection goes at the end of the list and is the only one told
      anything: one `connected` notice whose count includes itself. */
  lemma ConnectAppendsAndAnnounces(clients: seq<ConnId>, ws: ConnId)
    ensures var after := NextClients(clients, Connect(ws));
      && |after| == |clients| + 1 && after[..|clients|] == clients && after[|clients|] == ws
      && Recipients(Emitted(clients, Connect(ws))) == [ws]
      && Member(Emitted(clients, Connect(ws))[0].1, "type") == Some(Str("connected"))
      && Member(Emitted(clients, Connect(ws))[0].1, "clientCount") == Some(Num(|after|))
  {
    NoticeFields(|clients| + 1);
    assert Recipients([(ws, ConnectedNotice(|clients| + 1))])[0] == ws;
  }

  // ---------------------------------------------------------------- message

  /** A frame that fails to parse sends nothing and leaves the list alone. */
  lemma MalformedIgnored(st: State, ws: ConnId, open: set<ConnId>)
    ensures Step(st, Message(ws, None, open)) == st
  {
  }

  /** A parsed value is sent, unchanged, to each OPEN client other than the
      sender as many times as it occurs in the list, to nobody else, in list
      order; the list does not change. */
  lemma RelayDelivery(clients: seq<ConnId>, ws: ConnId, v: Value, open: set<ConnId>, x: ConnId)
    requires !LogLineThrows(v)
    ensures NextClients(clients, Message(ws, Some(v), open)) == clients
    ensures var sent := Emitted(clients, Message(ws, Some(v), open));
      && (forall s <- sent :: s.1 == v)
      && multiset(Recipients(sent))[x] == (if x != ws && x in open then multiset(clients)[x] else 0)
      && IsSubsequence(Recipients(sent), clients)
  {
    FilterCount(clients, RelayTo(ws, open), x);
    FilterSubsequence(clients, RelayTo(ws, open));
  }

  /** With no duplicate in the list, each OPEN client other than the sender gets
      the value exactly once, and no one else gets it. */
  lemma RelayExactlyOnce(clients: seq<ConnId>, ws: ConnId, v: Value, open: set<ConnId>, x: ConnId)
    requires Distinct(clients) && !LogLineThrows(v)
    ensures multiset(Recipients(Emitted(clients, Message(ws, Some(v), open))))[x]
            == if x in clients && x != ws && x in open then 1 else 0
  {
    RelayDelivery(clients, ws, v, open, x);
  }

  /** Forwarding does not look inside the value: two values, whatever their
      fields, reach the same connections in the same order. */
  lemma RelayIgnoresContent(clients: seq<ConnId>, ws: ConnId, v: Value, w: Value, open: set<ConnId>)
    requires !LogLineThrows(v) && !LogLineThrows(w)
    ensures var sv := Emitted(clients, Message(ws, Some(v), open));
      var sw := Emitted(clients, Message(ws, Some(w), open));
      |sv| == |sw| && forall i :: 0 <= i < |sv| ==> sv[i] == (sw[i].0, v)
  {
    var targets := Filter(clients, RelayTo(ws, open));
    assert Recipients(Fanout(targets, v)) == Recipients(Fanout(targets, w));
  }

  /** The handler never checks that the sender is still in the list: a frame
      from a connection that was already removed reaches every OPEN client. */
  lemma StaleSenderStillRelayed(clients: seq<ConnId>, ws: ConnId, v: Value, open: set<ConnId>)
    requires ws !in clients && !LogLineThrows(v)
    ensures Recipients(Emitted(clients, Message(ws, Some(v), open))) == Filter(clients, IsOpen(open))
  {
    FilterCongruent(clients, RelayTo(ws, open), IsOpen(open));
  }

  // ---------------------------------------------------------------- removal

  /** `clients.filter((client) => client !== ws)` drops every occurrence of
      `ws`, keeps every occurrence of every other connection, adds nothing and
      keeps the order. */
  lemma RemovalKeepsOthers(clients: seq<ConnId>, ws: ConnId, x: ConnId)
    ensures var after := Filter(clients, Others(ws));
      && ws !in after
      && multiset(after)[x] == (if x == ws then 0 else multiset(clients)[x])
      && (forall c <- after :: c in clients)
      && IsSubsequence(after, clients)
  {
    var after := Filter(clients, Others(ws));
    FilterMembers(clients, Others(ws), ws);
    FilterCount(clients, Others(ws), x);
    forall c <- after ensures c in clients {
      FilterMembers(clients, Others(ws), c);
    }
    FilterSubsequence(clients, Others(ws));
  }

  // ---------------------------------------------------------------- close

  /** Close takes the connection out, keeps the others and their order, and
      sends one `peer-disconnected` to each remaining OPEN occurrence. */
  lemma CloseRemovesAndNotifies(clients: seq<ConnId>, ws: ConnId, open: set<ConnId>, x: ConnId)
    ensures var after := NextClients(clients, Close(ws, open));
      && ws !in after
      && multiset(after)[x] == (if x == ws then 0 else multiset(clients)[x])
      && IsSubsequence(after, clients)
    ensures var sent := Emitted(clients, Close(ws, open));
      && (forall s <- sent :: s.1 == PeerDisconnectedNotice())
      && multiset(Recipients(sent))[x] == (if x != ws && x in open then multiset(clients)[x] else 0)
      && IsSubsequence(Recipients(sent), NextClients(clients, Close(ws, open)))
  {
    var after := Filter(clients, Others(ws));
    RemovalKeepsOthers(clients, ws, x);
    FilterCount(after, IsOpen(open), x);
    FilterSubsequence(after, IsOpen(open));
  }

  /** The connections told that `ws` left are exactly, and in the same order,
      those its frames would have reached. */
  lemma CloseNotifiesWhomMessagesReach(clients: seq<ConnId>, ws: ConnId, v: Value, open: set<ConnId>)
    requires !LogLineThrows(v)
    ensures Recipients(Emitted(clients, Close(ws, open)))
            == Recipients(Emitted(clients, Message(ws, Some(v), open)))
  {
    FilterFilter(clients, Others(ws), IsOpen(open), RelayTo(ws, open));
  }

  // ---------------------------------------------------------------- error

  /** Error takes the connection out, keeps the others and their order, and
      tells no one. */
  lemma ErrorRemovesSilently(clients: seq<ConnId>, ws: ConnId, x: ConnId)
    ensures var after := NextClients(clients, Error(ws));
      && ws !in after
      && multiset(after)[x] == (if x == ws then 0 else multiset(clients)[x])
      && IsSubsequence(after, clients)
    ensures Emitted(clients, Error(ws)) == []
  {
    RemovalKeepsOthers(clients, ws, x);
  }

  // ---------------------------------------------------------------- idempotence

  /** Removing a connection that is not in the list changes nothing. */
  lemma RemovalIdempotent(clients: seq<ConnId>, ws: ConnId, open: set<ConnId>)
    requires ws !in clients
    ensures NextClients(clients, Close(ws, open)) == clients
    ensures NextClients(clients, Error(ws)) == clients
  {
    FilterKeepsAll(clients, Others(ws));
  }

  /** After an error, the close that follows leaves the list as the error left
      it, yet still sends `peer-disconnected` to every OPEN client in it. */
  lemma ErrorThenClose(st: State, ws: ConnId, open: set<ConnId>)
    ensures var mid := Step(st, Error(ws));
      var last := Step(mid, Close(ws, open));
      && last.clients == mid.clients
      && last.outbox[..|mid.outbox|] == mid.outbox == st.outbox
      && Recipients(last.outbox[|mid.outbox|..]) == Filter(mid.clients, IsOpen(open))
      && forall s <- last.outbox[|mid.outbox|..] :: s.1 == PeerDisconnectedNotice()
  {
    var mid := Step(st, Error(ws));
    RemovalKeepsOthers(st.clients, ws, ws);
    RemovalIdempotent(mid.clients, ws, open);
    var last := Step(mid, Close(ws, open));
    assert last.outbox[|mid.outbox|..] == Emitted(mid.clients, Close(ws, open));
  }

  // ---------------------------------------------------------------- traces

  /** The connections accepted during `events`. */
  function ConnectedIds(events: seq<Event>): set<ConnId>
  {
    if events == [] then {}
    else ConnectedIds(events[..|events| - 1])
         + (if events[|events| - 1].Connect? then {events[|events| - 1].ws} else {})
  }

  /** Every accepted connection is a new socket. */
  predicate FreshConnects(events: seq<Event>)
  {
    events == [] ||
    (FreshConnects(events[..|events| - 1]) &&
     (events[|events| - 1].Connect? ==> events[|events| - 1].ws !in ConnectedIds(events[..|events| - 1])))
  }

  /** When every connection is new, the list never holds one twice, and holds
      only connections that were accepted: a connection is pushed once and
      afterwards only ever filtered out. */
  lemma {:induction false} RunKeepsClientsDistinct(events: seq<Event>)
    requires FreshConnects(events)
    ensures Distinct(Run(events).clients)
    ensures forall c <- Run(events).clients :: c in ConnectedIds(events)
  {
    if events != [] {
      var prefix, e := events[..|events| - 1], events[|events| - 1];
      RunKeepsClientsDistinct(prefix);
      var before := Run(prefix).clients;
      match e
      case Connect(ws) =>
        assert ws !in before;
        assert multiset(before + [ws]) == multiset(before) + multiset{ws};
      case Message(_, _, _) =>
      case Close(ws, _) =>
        FilterDistinct(before, Others(ws));
        RemovalKeepsOthers(before, ws, ws);
      case Error(ws) =>
        FilterDistinct(before, Others(ws));
        RemovalKeepsOthers(before, ws, ws);
    }
  }

  // ---------------------------------------------------------------- frames the log line throws on

  /** An object whose `toString` member came from the JSON text. */
  function SelfNamedObject(): (v: Value)
    ensures StringConversionThrows(v)
  {
    Obj([("toString", Num(1))])
  }

  /** As written, the frames `null`, `{"type":{"toString":1}}` and
      `{"type":[{"toString":1}]}` make the handler throw at its log line, while
      a frame that fails to parse is dropped quietly. */
  lemma UnloggableFrameThrows(clients: seq<ConnId>, ws: ConnId, open: set<ConnId>)
    ensures MessageAsWritten(clients, ws, Some(Null), open) == Threw
    ensures MessageAsWritten(clients, ws, Some(Obj([("type", SelfNamedObject())])), open) == Threw
    ensures MessageAsWritten(clients, ws, Some(Obj([("type", Arr([SelfNamedObject()]))])), open) == Threw
    ensures MessageAsWritten(clients, ws, None, open) == Completed([])
  {
    assert Arr([SelfNamedObject()]).items[0] == SelfNamedObject();
  }

  /** The model drops a frame on which the log line throws as it drops a
      malformed one, and agrees with the handler as written on every frame that
      does not throw. */
  lemma UnloggableFrameDropped(st: State, ws: ConnId, v: Value, parsed: Option<Value>, open: set<ConnId>)
    requires LogLineThrows(v)
    ensures Step(st, Message(ws, Some(v), open)) == Step(st, Message(ws, None, open)) == st
    ensures MessageAsWritten(st.clients, ws, parsed, open).Completed? ==>
      st.outbox + MessageAsWritten(st.clients, ws, parsed, open).sent == Step(st, Message(ws, parsed, open)).outbox
  {
    assert st.outbox + [] == st.outbox;
  }
}
