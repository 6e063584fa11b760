/**
  The connection registry (`clients`) and the broadcast pass that sends the
  cache to every registered connection, pruning those that disconnected.
 */
module Registry {
  import opened Values

  /** An opaque handle to one live websocket connection. */
  datatype Conn = Conn(id: nat)

  /** What one `send_json` did: delivered, raised WebSocketDisconnect, or raised anything else. */
  datatype SendOutcome = Delivered | Disconnected | SendFailed

  /** One message a connection received. */
  datatype Message = Message(to: Conn, payload: Json)

  /** The registry after a broadcast pass, the messages sent, and whether a send raised out of it. */
  datatype Broadcasted = Broadcasted(clients: set<Conn>, sent: seq<Message>, failed: bool)

  /** `clients.add(c)`. */
  function Add(clients: set<Conn>, c: Conn): (r: set<Conn>)
    ensures c in r && clients <= r && r - {c} <= clients
  {
    clients + {c}
  }

  /** `clients.discard(c)`: never raises, whether or not `c` is registered. */
  function Discard(clients: set<Conn>, c: Conn): (r: set<Conn>)
    ensures c !in r && r <= clients && clients - {c} <= r
  {
    clients - {c}
  }

  /** Discarding twice is discarding once; discarding an absent connection changes nothing. */
  lemma DiscardIdempotent(clients: set<Conn>, c: Conn)
    ensures Discard(Discard(clients, c), c) == Discard(clients, c)
    ensures c !in clients ==> Discard(clients, c) == clients
  {
  }

  /** `order` is the list `list(clients)` produces: every registered connection exactly once. */
  ghost predicate IsListing(order: seq<Conn>, clients: set<Conn>)
  {
    (forall c :: c in clients <==> c in order) &&
    (forall i, j :: 0 <= i < j < |order| ==> order[i] != order[j])
  }

  /**
    The broadcast loop over the copy `order`: each connection is sent
    `payload`; WebSocketDisconnect discards it and the loop goes on; any
    other exception leaves the loop with the registry as it then stands.
   */
  function Broadcast(clients: set<Conn>, order: seq<Conn>, send: Conn -> SendOutcome, payload: Json): (r: Broadcasted)
    ensures r.clients <= clients
    ensures forall m :: m in r.sent ==> m.payload == payload
    decreases |order|
  {
    if order == [] then Broadcasted(clients, [], false)
    else
      var ws := order[0];
      match send(ws)
      case Delivered =>
        var rest := Broadcast(clients, order[1..], send, payload);
        rest.(sent := [Message(ws, payload)] + rest.sent)
      case Disconnected => Broadcast(Discard(clients, ws), order[1..], send, payload)
      case SendFailed => Broadcasted(clients, [], true)
  }

  /** The connections in `order` whose send raised WebSocketDisconnect. */
  function Dropped(order: seq<Conn>, send: Conn -> SendOutcome): set<Conn>
  {
    set c | c in order && send(c) == Disconnected
  }

  /** The connections in `order` whose send went through, in order. */
  function Reached(order: seq<Conn>, send: Conn -> SendOutcome): (r: seq<Conn>)
    ensures forall c :: c in r <==> c in order && send(c) == Delivered
  {
    if order == [] then []
    else if send(order[0]) == Delivered then [order[0]] + Reached(order[1..], send)
    else Reached(order[1..], send)
  }

  /** The recipients of a list of messages, in order. */
  function Recipients(sent: seq<Message>): (r: seq<Conn>)
    ensures |r| == |sent| && forall i :: 0 <= i < |sent| ==> r[i] == sent[i].to
  {
    if sent == [] then [] else [sent[0].to] + Recipients(sent[1..])
  }

  /** How the pruned set and the reached list grow by one connection at the front. */
  lemma ConsFacts(ws: Conn, rest: seq<Conn>, send: Conn -> SendOutcome, payload: Json, sent: seq<Message>)
    ensures Dropped([ws] + rest, send) == Dropped(rest, send) + (if send(ws) == Disconnected then {ws} else {})
    ensures Reached([ws] + rest, send) == if send(ws) == Delivered then [ws] + Reached(rest, send) else Reached(rest, send)
    ensures Recipients([Message(ws, payload)] + sent) == [ws] + Recipients(sent)
  {
    assert ([ws] + rest)[1..] == rest;
    assert ([Message(ws, payload)] + sent)[1..] == sent;
  }

  /**
    When no send raises anything but WebSocketDisconnect, the pass completes:
    the registry loses exactly the disconnected connections, and every
    other connection in `order` receives `payload`, in order.
   */
  lemma {:induction false} BroadcastPrunes(clients: set<Conn>, order: seq<Conn>, send: Conn -> SendOutcome, payload: Json)
    requires forall c :: c in order ==> send(c) != SendFailed
    ensures var b := Broadcast(clients, order, send, payload);
            && !b.failed
            && b.clients == clients - Dropped(order, send)
            && Recipients(b.sent) == Reached(order, send)
    decreases |order|
  {
    if order != [] {
      var ws, tail := order[0], order[1..];
      assert order == [ws] + tail;
      assert forall c :: c in tail ==> c in order;
      var rest := Broadcast(clients, tail, send, payload);
      ConsFacts(ws, tail, send, payload, rest.sent);
      if send(ws) == Delivered {
        BroadcastPrunes(clients, tail, send, payload);
      } else {
        BroadcastPrunes(Discard(clients, ws), tail, send, payload);
      }
    }
  }

  /**
    A send raising anything other than WebSocketDisconnect ends the pass:
    connections after it are neither sent to nor pruned.
   */
  lemma {:induction false} BroadcastStopsAt(clients: set<Conn>, order: seq<Conn>, send: Conn -> SendOutcome, payload: Json, k: nat)
    requires k < |order| && send(order[k]) == SendFailed
    requires forall j :: 0 <= j < k ==> send(order[j]) != SendFailed
    ensures var b := Broadcast(clients, order, send, payload);
            && b.failed
            && b.clients == clients - Dropped(order[..k], send)
            && Recipients(b.sent) == Reached(order[..k], send)
    decreases k
  {
    if k == 0 {
      assert order[..k] == [];
    } else {
      var ws, tail := order[0], order[1..];
      assert order[..k] == [ws] + tail[..k - 1];
      assert forall j :: 0 <= j < k - 1 ==> tail[j] == order[j + 1];
      var rest := Broadcast(clients, tail, send, payload);
      ConsFacts(ws, tail[..k - 1], send, payload, rest.sent);
      if send(ws) == Delivered {
        BroadcastStopsAt(clients, tail, send, payload, k - 1);
      } else {
        BroadcastStopsAt(Discard(clients, ws), tail, send, payload, k - 1);
      }
    }
  }

  /**
    Over the copy of the whole registry, a pass without other exceptions
    leaves exactly the registered connections that did not disconnect.
   */
  lemma BroadcastKeepsLive(clients: set<Conn>, order: seq<Conn>, send: Conn -> SendOutcome, payload: Json)
    requires IsListing(order, clients)
    requires forall c :: c in clients ==> send(c) != SendFailed
    ensures Broadcast(clients, order, send, payload).clients == set c | c in clients && send(c) != Disconnected
  {
    BroadcastPrunes(clients, order, send, payload);
  }

  /** Three connections, the middle one disconnected: it alone is removed, the other two receive the payload. */
  lemma BroadcastExample(a: Conn, b: Conn, c: Conn, send: Conn -> SendOutcome, payload: Json)
    requires a != b && b != c && a != c
    requires send(a) == Delivered && send(b) == Disconnected && send(c) == Delivered
    ensures var r := Broadcast({a, b, c}, [a, b, c], send, payload);
            r.clients == {a, c} && r.sent == [Message(a, payload), Message(c, payload)] && !r.failed
  {
    assert [a, b, c][1..] == [b, c] && [b, c][1..] == [c] && [c][1..] == [];
    assert Discard({a, b, c}, b) == {a, c};
    var last := Broadcast({a, c}, [c], send, payload);
    assert Broadcast({a, c}, [], send, payload) == Broadcasted({a, c}, [], false);
    assert last == Broadcasted({a, c}, [Message(c, payload)], false);
    assert Broadcast({a, b, c}, [b, c], send, payload) == last;
  }
}
