/** The handlers of server/signaling-server.js over the module-level `clients`
    array, as an object whose methods update it in place. `outbox` is the log of
    every `send` the handlers make; each handler is proved to be the transition
    `Relay.Step` of its event, so the lemmas of module Relay hold of it. */
module Server {

  import opened Wrappers
  import opened Json
  import opened Seqs
  import opened Relay

  class SignalingServer {

    /** The live connections, in the order they were accepted. */
    var clients: seq<ConnId>
    /** Every (recipient, value) sent so far. */
    var outbox: seq<Send>

    function Snapshot(): State
      reads this
    {
      State(clients, outbox)
    }

    constructor ()
      ensures Snapshot() == Initial
    {
      clients := [];
      outbox := [];
    }

    /** `s.filter((client) => client !== ws)`: a new list without `ws`. */
    static method Without(s: seq<ConnId>, ws: ConnId) returns (kept: seq<ConnId>)
      ensures kept == Filter(s, Others(ws))
    {
      kept := [];
      var i := 0;
      while i < |s|
        invariant 0 <= i <= |s|
        invariant kept == Filter(s[..i], Others(ws))
      {
        FilterSnoc(s, i, Others(ws));
        if s[i] != ws {
          kept := kept + [s[i]];
        }
        i := i + 1;
      }
      assert s[..i] == s;
    }

    /** `clients.forEach((client) => { if (keep(client)) client.send(m); })`. */
    method SendWhere(keep: ConnId -> bool, m: Value)
      modifies this`outbox
      ensures outbox == old(outbox) + Fanout(Filter(clients, keep), m)
    {
      var list := clients;
      var i := 0;
      while i < |list|
        invariant 0 <= i <= |list|
        invariant outbox == old(outbox) + Fanout(Filter(list[..i], keep), m)
      {
        ghost var done := Filter(list[..i], keep);
        FilterSnoc(list, i, keep);
        if keep(list[i]) {
          FanoutAppend(done, [list[i]], m);
          outbox := outbox + [(list[i], m)];
        }
        i := i + 1;
      }
      assert list[..i] == list;
    }

    /** The `connection` handler: push, then greet the new client with the count. */
    method OnConnect(ws: ConnId)
      modifies this
      ensures clients == old(clients) + [ws]
      ensures outbox == old(outbox) + [(ws, ConnectedNotice(|clients|))]
      ensures Snapshot() == Step(old(Snapshot()), Connect(ws))
    {
      clients := clients + [ws];
      outbox := outbox + [(ws, ConnectedNotice(|clients|))];
    }

    /** The `message` handler, given what `JSON.parse` made of the frame. */
    method OnMessage(ws: ConnId, parsed: Option<Value>, open: set<ConnId>)
      modifies this
      ensures clients == old(clients)
      ensures outbox == old(outbox) + match parsed
        case Some(data) => if LogLineThrows(data) then [] else Fanout(Filter(clients, RelayTo(ws, open)), data)
        case None => []
      ensures Snapshot() == Step(old(Snapshot()), Message(ws, parsed, open))
    {
      match parsed
      case None =>
        // the parse threw: logged and dropped
      case Some(data) =>
        // the log line would throw before anything is sent
        if !LogLineThrows(data) {
          SendWhere(RelayTo(ws, open), data);
        }
    }

    /** The `close` handler: drop `ws`, then tell every remaining OPEN client. */
    method OnClose(ws: ConnId, open: set<ConnId>)
      modifies this
      ensures clients == Filter(old(clients), Others(ws))
      ensures outbox == old(outbox) + Fanout(Filter(clients, IsOpen(open)), PeerDisconnectedNotice())
      ensures Snapshot() == Step(old(Snapshot()), Close(ws, open))
    {
      clients := Without(clients, ws);
      SendWhere(IsOpen(open), PeerDisconnectedNotice());
    }

    /** The `error` handler: drop `ws` and tell no one. */
    method OnError(ws: ConnId)
      modifies this
      ensures clients == Filter(old(clients), Others(ws))
      ensures outbox == old(outbox)
      ensures Snapshot() == Step(old(Snapshot()), Error(ws))
    {
      clients := Without(clients, ws);
    }
  }

  /** A session of two peers: A and B connect, A sends an offer, A's socket
      errors and then closes while B stays OPEN. B gets its greeting, the offer
      unchanged and one `peer-disconnected`; A gets only its greeting. */
  method TwoPeerSession(a: ConnId, b: ConnId, offer: Value) returns (log: seq<Send>)
    requires a != b && !LogLineThrows(offer)
    ensures log == [(a, ConnectedNotice(1)), (b, ConnectedNotice(2)), (b, offer), (b, PeerDisconnectedNotice())]
  {
    var server := ConnectBoth(a, b);
    TwoPeerFilters(a, b, offer);
    server.OnMessage(a, Some(offer), {a, b});
    assert server.outbox == [(a, ConnectedNotice(1)), (b, ConnectedNotice(2)), (b, offer)];
    server.OnError(a);
    assert server.clients == [b];
    server.OnClose(a, {b});
    log := server.outbox;
  }

  /** A new server after A and then B connect. */
  method ConnectBoth(a: ConnId, b: ConnId) returns (server: SignalingServer)
    ensures fresh(server)
    ensures server.clients == [a, b]
    ensures server.outbox == [(a, ConnectedNotice(1)), (b, ConnectedNotice(2))]
  {
    server := new SignalingServer();
    server.OnConnect(a);
    assert server.clients == [a];
    assert server.outbox == [(a, ConnectedNotice(1))];
    server.OnConnect(b);
  }

  /** What the guards of the handlers select in a two-peer session. */
  lemma TwoPeerFilters(a: ConnId, b: ConnId, v: Value)
    requires a != b
    ensures Fanout(Filter([a, b], RelayTo(a, {a, b})), v) == [(b, v)]
    ensures Filter([a, b], Others(a)) == [b]
    ensures Fanout(Filter([b], IsOpen({b})), PeerDisconnectedNotice()) == [(b, PeerDisconnectedNotice())]
  {
    assert [a, b][1..] == [b];
    assert Filter([b], RelayTo(a, {a, b})) == [b];
    assert Filter([b], IsOpen({b})) == [b];
  }
}
