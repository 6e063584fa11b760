/**
  The dashboard service: the cache `data_store`, the registry `clients`,
  one cycle of the poll loop `fetch_feeds`, the `/data` read and the
  websocket endpoint's registry updates.
 */
module Dashboard {
  import opened Values
  import opened Feeds
  import opened Registry

  // ---------------------------------------------------------------- the cache

  /** The cache `data_store`: one entry per feed. */
  datatype Snapshot = Snapshot(earthquakes: seq<string>, weather: map<string, Json>, crypto: map<string, Json>)

  /** The cache before any write: `{earthquakes: [], weather: {}, crypto: {}}`. */
  const Initial: Snapshot := Snapshot([], map[], map[])

  /** A list of Python strings as JSON. */
  function Strings(q: seq<string>): (r: seq<Json>)
    ensures |r| == |q| && forall i :: 0 <= i < |q| ==> r[i] == JStr(q[i])
  {
    if q == [] then [] else [JStr(q[0])] + Strings(q[1..])
  }

  /** The cache as the JSON document that `/data` returns and every send carries. */
  function SnapshotJson(s: Snapshot): (r: Json)
    ensures r.JObj? && r.fields.Keys == {"earthquakes", "weather", "crypto"}
    ensures r.fields["weather"] == JObj(s.weather) && r.fields["crypto"] == JObj(s.crypto)
    ensures r.fields["earthquakes"].JArr? && |r.fields["earthquakes"].items| == |s.earthquakes|
    ensures forall i :: 0 <= i < |s.earthquakes| ==> r.fields["earthquakes"].items[i] == JStr(s.earthquakes[i])
  {
    JObj(map["earthquakes" := JArr(Strings(s.earthquakes)), "weather" := JObj(s.weather), "crypto" := JObj(s.crypto)])
  }

  /** Reads a JSON list of strings back. */
  function Texts(items: seq<Json>): Option<seq<string>>
  {
    if items == [] then Some([])
    else if !items[0].JStr? then None
    else match Texts(items[1..])
      case None => None
      case Some(rest) => Some([items[0].s] + rest)
  }

  /** Reads a cache back from its JSON document; None for a document of another shape. */
  function SnapshotOf(j: Json): Option<Snapshot>
  {
    if j.JObj? && j.fields.Keys == {"earthquakes", "weather", "crypto"} &&
       j.fields["earthquakes"].JArr? && j.fields["weather"].JObj? && j.fields["crypto"].JObj?
    then
      match Texts(j.fields["earthquakes"].items)
      case None => None
      case Some(q) => Some(Snapshot(q, j.fields["weather"].fields, j.fields["crypto"].fields))
    else None
  }

  lemma {:induction false} TextsOfStrings(q: seq<string>)
    ensures Texts(Strings(q)) == Some(q)
  {
    if q != [] {
      TextsOfStrings(q[1..]);
      assert Strings(q)[1..] == Strings(q[1..]);
      assert [q[0]] + q[1..] == q;
    }
  }

  lemma {:induction false} StringsOfTexts(items: seq<Json>)
    requires Texts(items).Some?
    ensures Strings(Texts(items).value) == items
  {
    if items != [] {
      StringsOfTexts(items[1..]);
      assert [items[0]] + items[1..] == items;
    }
  }

  /** The document served is the cache itself: it reads back to exactly the cache. */
  lemma SnapshotRoundTrip(s: Snapshot)
    ensures SnapshotOf(SnapshotJson(s)) == Some(s)
  {
    TextsOfStrings(s.earthquakes);
  }

  /** Every document of the cache's shape is the document of exactly one cache. */
  lemma SnapshotJsonOnto(j: Json)
    requires SnapshotOf(j).Some?
    ensures SnapshotJson(SnapshotOf(j).value) == j
  {
    StringsOfTexts(j.fields["earthquakes"].items);
  }

  /** Before any write, `/data` serves `{"earthquakes": [], "weather": {}, "crypto": {}}`. */
  lemma InitialPayload()
    ensures SnapshotJson(Initial) == JObj(map["earthquakes" := JArr([]), "weather" := JObj(map[]), "crypto" := JObj(map[])])
  {
  }

  // ---------------------------------------------------------------- one poll cycle

  /** The steps of a cycle, in the order they run. */
  datatype Stage = EarthquakeStage | WeatherStage | CryptoStage | BroadcastStage

  /** How a cycle ended: every step ran, or the step that raised and what it raised. */
  datatype CycleOutcome = Completed | Aborted(stage: Stage, exc: Exc)

  /**
    What the outside world does during one cycle: the three HTTP outcomes,
    the order `list(clients)` lists the registry in, and what each send does.
   */
  datatype CycleInput = CycleInput(quakes: Fetch, weather: Fetch, crypto: Fetch,
                                   order: seq<Conn>, send: Conn -> SendOutcome)

  datatype CycleResult = CycleResult(store: Snapshot, clients: set<Conn>, sent: seq<Message>, outcome: CycleOutcome)

  /** An entry after a step: the written value, or the previous one. */
  function Written<T>(prev: T, w: Option<T>): T
  {
    if w.Some? then w.value else prev
  }

  /**
    One pass through the body of the `while True` loop. The three feeds
    and the broadcast share one `try`: the first exception ends the pass,
    keeping the entries already written.
   */
  function Cycle(st: Snapshot, clients: set<Conn>, inp: CycleInput): CycleResult
  {
    match Step(inp.quakes, Quakes)
    case Err(e) => CycleResult(st, clients, [], Aborted(EarthquakeStage, e))
    case Ok(q) =>
      var st1 := st.(earthquakes := Written(st.earthquakes, q));
      match Step(inp.weather, Weather)
      case Err(e) => CycleResult(st1, clients, [], Aborted(WeatherStage, e))
      case Ok(w) =>
        var st2 := st1.(weather := Written(st1.weather, w));
        match Step(inp.crypto, Crypto)
        case Err(e) => CycleResult(st2, clients, [], Aborted(CryptoStage, e))
        case Ok(c) =>
          var st3 := st2.(crypto := Written(st2.crypto, c));
          var b := Broadcast(clients, inp.order, inp.send, SnapshotJson(st3));
          CycleResult(st3, b.clients, b.sent, if b.failed then Aborted(BroadcastStage, SendError) else Completed)
  }

  /** A response whose status is not 200. */
  predicate NotOk(f: Fetch)
  {
    f.Response? && f.status != 200
  }

  /** A feed whose response is not 200 keeps its entry, whatever the other feeds do. */
  lemma CycleNotOkKeepsEntry(st: Snapshot, clients: set<Conn>, inp: CycleInput)
    ensures var r := Cycle(st, clients, inp);
            && (NotOk(inp.quakes) ==> r.store.earthquakes == st.earthquakes)
            && (NotOk(inp.weather) ==> r.store.weather == st.weather)
            && (NotOk(inp.crypto) ==> r.store.crypto == st.crypto)
  {
  }

  /**
    An exception in a feed step ends the cycle at that step, carrying the
    exception the step raised: the writes of the steps before it stay, no
    later step writes, nothing is sent and the registry is untouched.
   */
  lemma CycleAbortKeepsEarlierWrites(st: Snapshot, clients: set<Conn>, inp: CycleInput)
    ensures var r := Cycle(st, clients, inp);
            var q, w, c := Step(inp.quakes, Quakes), Step(inp.weather, Weather), Step(inp.crypto, Crypto);
            && (q.Err? ==> r == CycleResult(st, clients, [], Aborted(EarthquakeStage, q.exc)))
            && (q.Ok? && w.Err? ==>
                  r == CycleResult(st.(earthquakes := Written(st.earthquakes, q.value)),
                                   clients, [], Aborted(WeatherStage, w.exc)))
            && (q.Ok? && w.Ok? && c.Err? ==>
                  r == CycleResult(st.(earthquakes := Written(st.earthquakes, q.value),
                                       weather := Written(st.weather, w.value)),
                                   clients, [], Aborted(CryptoStage, c.exc)))
  {
  }

  /**
    When all three feed steps return, each entry is replaced exactly when
    its feed wrote, and the other entries keep their previous values.
   */
  lemma CycleWritesExactly(st: Snapshot, clients: set<Conn>, inp: CycleInput)
    requires Step(inp.quakes, Quakes).Ok? && Step(inp.weather, Weather).Ok? && Step(inp.crypto, Crypto).Ok?
    ensures Cycle(st, clients, inp).store ==
              Snapshot(Written(st.earthquakes, Step(inp.quakes, Quakes).value),
                       Written(st.weather, Step(inp.weather, Weather).value),
                       Written(st.crypto, Step(inp.crypto, Crypto).value))
  {
  }

  /** The earthquake feed answers 503 while weather and crypto write: only those two entries change. */
  lemma CycleQuakesDownOthersWrite(st: Snapshot, clients: set<Conn>, inp: CycleInput,
                                   w: map<string, Json>, c: map<string, Json>)
    requires inp.quakes.Response? && inp.quakes.status == 503
    requires Step(inp.weather, Weather) == Ok(Some(w)) && Step(inp.crypto, Crypto) == Ok(Some(c))
    ensures Cycle(st, clients, inp).store == Snapshot(st.earthquakes, w, c)
  {
    CycleWritesExactly(st, clients, inp);
  }

  /** The cache after a cycle depends on the three fetches only: the broadcast never changes it. */
  lemma CycleStoreIgnoresBroadcast(st: Snapshot, clients1: set<Conn>, clients2: set<Conn>, inp1: CycleInput, inp2: CycleInput)
    requires inp1.quakes == inp2.quakes && inp1.weather == inp2.weather && inp1.crypto == inp2.crypto
    ensures Cycle(st, clients1, inp1).store == Cycle(st, clients2, inp2).store
  {
  }

  /** Every message a cycle sends is the cache as the cycle leaves it. */
  lemma CycleSendsStore(st: Snapshot, clients: set<Conn>, inp: CycleInput)
    ensures var r := Cycle(st, clients, inp);
            forall m :: m in r.sent ==> m.payload == SnapshotJson(r.store)
  {
  }

  /**
    When all three feed steps return and no send raises anything but
    WebSocketDisconnect, the cycle completes: every live connection gets the
    new cache, and the registry loses exactly the disconnected ones.
   */
  lemma CycleCompletes(st: Snapshot, clients: set<Conn>, inp: CycleInput)
    requires IsListing(inp.order, clients)
    requires Step(inp.quakes, Quakes).Ok? && Step(inp.weather, Weather).Ok? && Step(inp.crypto, Crypto).Ok?
    requires forall c :: c in clients ==> inp.send(c) != SendFailed
    ensures var r := Cycle(st, clients, inp);
            && r.outcome == Completed
            && r.clients == (set c | c in clients && inp.send(c) != Disconnected)
            && Recipients(r.sent) == Reached(inp.order, inp.send)
  {
    var r := Cycle(st, clients, inp);
    BroadcastPrunes(clients, inp.order, inp.send, SnapshotJson(r.store));
    BroadcastKeepsLive(clients, inp.order, inp.send, SnapshotJson(r.store));
  }

  /** An earthquake feature as the feed sends it. */
  function Feature(mag: string, place: string): Json
  {
    JObj(map["properties" := JObj(map["mag" := JNum(mag), "place" := JStr(place)])])
  }

  const QuakeDoc: Json := JObj(map["features" := JArr([Feature("4.2", "10km N of X"), Feature("2.1", "5km S of Y")])])

  const WeatherDoc: Json :=
    JObj(map["current_condition" := JArr([JObj(map["temp_C" := JStr("21"), "humidity" := JStr("40"),
                                                    "weatherDesc" := JArr([JObj(map["value" := JStr("Clear")])])])])])

  const CryptoDoc: Json :=
    JObj(map["bpi" := JObj(map["USD" := JObj(map["rate" := JStr("65000.00")])]),
             "time" := JObj(map["updated" := JStr("Jan 1, 2024 00:00 UTC")])])

  const Expected: Snapshot :=
    Snapshot(["M4.2 \U{2013} 10km N of X", "M2.1 \U{2013} 5km S of Y"],
             map["temp_c" := JStr("21"), "humidity" := JStr("40"), "desc" := JStr("Clear")],
             map["rate" := JStr("65000.00"), "updated" := JStr("Jan 1, 2024 00:00 UTC")])

  /** The line for one feature whose magnitude is a number and whose place is a string. */
  lemma FeatureLine(mag: string, place: string)
    ensures QuakeLine(Feature(mag, place)) == Ok("M" + mag + " \U{2013} " + place)
  {
  }

  lemma QuakeDocLines()
    ensures Quakes(QuakeDoc) == Ok(Expected.earthquakes)
  {
    var fs := [Feature("4.2", "10km N of X"), Feature("2.1", "5km S of Y")];
    FeatureLine("4.2", "10km N of X");
    FeatureLine("2.1", "5km S of Y");
    assert "M" + "4.2" + " \U{2013} " + "10km N of X" == Expected.earthquakes[0];
    assert "M" + "2.1" + " \U{2013} " + "5km S of Y" == Expected.earthquakes[1];
    var lines := QuakeLines(fs);
    assert lines.Ok? && |lines.value| == 2;
    assert lines.value == Expected.earthquakes;
  }

  lemma WeatherDocRecord()
    ensures Weather(WeatherDoc) == Ok(Expected.weather)
  {
  }

  lemma CryptoDocRecord()
    ensures Crypto(CryptoDoc) == Ok(Expected.crypto)
  {
  }

  /** When all three feeds write, the cycle replaces the whole cache and broadcasts it. */
  lemma CycleAllWrite(st: Snapshot, clients: set<Conn>, inp: CycleInput,
                      q: seq<string>, w: map<string, Json>, c: map<string, Json>)
    requires Step(inp.quakes, Quakes) == Ok(Some(q))
    requires Step(inp.weather, Weather) == Ok(Some(w))
    requires Step(inp.crypto, Crypto) == Ok(Some(c))
    ensures var b := Broadcast(clients, inp.order, inp.send, SnapshotJson(Snapshot(q, w, c)));
            Cycle(st, clients, inp) ==
              CycleResult(Snapshot(q, w, c), b.clients, b.sent, if b.failed then Aborted(BroadcastStage, SendError) else Completed)
  {
  }

  /**
    A fresh cache, two live connections and three feeds that all answer:
    the cache becomes exactly the three normalized records, and both
    connections receive it.
   */
  lemma EndToEnd(a: Conn, b: Conn, send: Conn -> SendOutcome)
    requires a != b && send(a) == Delivered && send(b) == Delivered
    ensures var inp := CycleInput(Response(200, Some(QuakeDoc)), Response(200, Some(WeatherDoc)),
                                  Response(200, Some(CryptoDoc)), [a, b], send);
            var r := Cycle(Initial, {a, b}, inp);
            && r.store == Expected
            && r.outcome == Completed
            && r.clients == {a, b}
            && r.sent == [Message(a, SnapshotJson(Expected)), Message(b, SnapshotJson(Expected))]
  {
    var inp := CycleInput(Response(200, Some(QuakeDoc)), Response(200, Some(WeatherDoc)),
                          Response(200, Some(CryptoDoc)), [a, b], send);
    QuakeDocLines();
    WeatherDocRecord();
    CryptoDocRecord();
    CycleAllWrite(Initial, {a, b}, inp, Expected.earthquakes, Expected.weather, Expected.crypto);
    assert Snapshot(Expected.earthquakes, Expected.weather, Expected.crypto) == Expected;
    BroadcastToTwo(a, b, send, SnapshotJson(Expected));
  }

  lemma BroadcastToTwo(a: Conn, b: Conn, send: Conn -> SendOutcome, payload: Json)
    requires a != b && send(a) == Delivered && send(b) == Delivered
    ensures Broadcast({a, b}, [a, b], send, payload) == Broadcasted({a, b}, [Message(a, payload), Message(b, payload)], false)
  {
    assert [a, b][1..] == [b] && [b][1..] == [];
    assert Broadcast({a, b}, [b], send, payload) == Broadcasted({a, b}, [Message(b, payload)], false);
  }

  // ---------------------------------------------------------------- a run of cycles

  /** Consecutive cycles: whatever a cycle raised, the loop goes on to the next one. */
  function Run(st: Snapshot, clients: set<Conn>, inputs: seq<CycleInput>): (Snapshot, set<Conn>)
    decreases |inputs|
  {
    if inputs == [] then (st, clients)
    else
      var r := Cycle(st, clients, inputs[0]);
      Run(r.store, r.clients, inputs[1..])
  }

  /** A response with status 200, the only kind that can lead to a write. */
  predicate Answered(f: Fetch)
  {
    f.Response? && f.status == 200
  }

  /** A feed that never answers 200 keeps its entry (the initial default, on a fresh cache) for the whole run. */
  lemma {:induction false} NeverAnsweredKeepsEntry(st: Snapshot, clients: set<Conn>, inputs: seq<CycleInput>)
    ensures (forall i :: 0 <= i < |inputs| ==> !Answered(inputs[i].quakes)) ==>
              Run(st, clients, inputs).0.earthquakes == st.earthquakes
    ensures (forall i :: 0 <= i < |inputs| ==> !Answered(inputs[i].weather)) ==>
              Run(st, clients, inputs).0.weather == st.weather
    ensures (forall i :: 0 <= i < |inputs| ==> !Answered(inputs[i].crypto)) ==>
              Run(st, clients, inputs).0.crypto == st.crypto
    decreases |inputs|
  {
    if inputs != [] {
      var r := Cycle(st, clients, inputs[0]);
      NeverAnsweredKeepsEntry(r.store, r.clients, inputs[1..]);
      assert forall i :: 0 <= i < |inputs| - 1 ==> inputs[1..][i] == inputs[i + 1];
    }
  }

  /** The earthquake entry after a run is the list written by the last cycle, whatever earlier cycles raised. */
  lemma {:induction false} LastEarthquakeWriteWins(st: Snapshot, clients: set<Conn>, inputs: seq<CycleInput>, q: seq<string>)
    requires inputs != [] && Step(inputs[|inputs| - 1].quakes, Quakes) == Ok(Some(q))
    ensures Run(st, clients, inputs).0.earthquakes == q
    decreases |inputs|
  {
    var r := Cycle(st, clients, inputs[0]);
    if |inputs| > 1 {
      assert inputs[1..][|inputs[1..]| - 1] == inputs[|inputs| - 1];
      LastEarthquakeWriteWins(r.store, r.clients, inputs[1..], q);
    }
  }

  // ---------------------------------------------------------------- the service

  /** The process-wide state: the cache `data_store` and the registry `clients`. */
  class Service {
    var earthquakes: seq<string>
    var weather: map<string, Json>
    var crypto: map<string, Json>
    var clients: set<Conn>

    /** The cache as one value. */
    function Current(): Snapshot
      reads this
    {
      Snapshot(earthquakes, weather, crypto)
    }

    /** Startup: an empty cache and no connections. */
    constructor ()
      ensures Current() == Initial && clients == {}
    {
      earthquakes, weather, crypto := [], map[], map[];
      clients := {};
    }

    /** `GET /data`: the cache as it stands, with no side effect. */
    method GetCurrentData() returns (r: Json)
      ensures r == SnapshotJson(Current())
      ensures SnapshotOf(r) == Some(Current())
    {
      r := SnapshotJson(Current());
      SnapshotRoundTrip(Current());
    }

    /**
      The websocket endpoint's first steps: register the connection, then send
      it the cache. WebSocketDisconnect discards it again; any other exception
      escapes the handler and leaves the connection registered.
     */
    method Accept(ws: Conn, first: SendOutcome) returns (greeting: Option<Message>)
      modifies this`clients
      ensures greeting == if first == Delivered then Some(Message(ws, SnapshotJson(Current()))) else None
      ensures clients == if first == Disconnected then Discard(Add(old(clients), ws), ws) else Add(old(clients), ws)
    {
      clients := Add(clients, ws);
      match first {
        case Delivered =>
          greeting := Some(Message(ws, SnapshotJson(Current())));
        case Disconnected =>
          clients := Discard(clients, ws);
          greeting := None;
        case SendFailed =>
          greeting := None;
      }
    }

    /** The keep-alive read raised WebSocketDisconnect: discard the connection. */
    method Disconnect(ws: Conn)
      modifies this`clients
      ensures clients == Discard(old(clients), ws)
    {
      clients := Discard(clients, ws);
    }

    /** The broadcast loop over a copy of the registry. */
    method BroadcastStore(order: seq<Conn>, send: Conn -> SendOutcome) returns (sent: seq<Message>, failed: bool)
      requires IsListing(order, clients)
      modifies this`clients
      ensures var b := Broadcast(old(clients), order, send, SnapshotJson(Current()));
              clients == b.clients && sent == b.sent && failed == b.failed
    {
      var payload := SnapshotJson(Current());
      ghost var start := clients;
      sent, failed := [], false;
      var i := 0;
      assert order[i..] == order;
      while i < |order|
        invariant 0 <= i <= |order|
        invariant var rest := Broadcast(clients, order[i..], send, payload);
                  Broadcast(start, order, send, payload) == rest.(sent := sent + rest.sent)
      {
        assert order[i..][0] == order[i] && order[i..][1..] == order[i + 1..];
        var ws := order[i];
        match send(ws) {
          case Delivered =>
            ghost var rest := Broadcast(clients, order[i + 1..], send, payload);
            assert sent + ([Message(ws, payload)] + rest.sent) == (sent + [Message(ws, payload)]) + rest.sent;
            sent := sent + [Message(ws, payload)];
          case Disconnected =>
            clients := Discard(clients, ws);
          case SendFailed =>
            assert sent + [] == sent;
            failed := true;
            return;
        }
        i := i + 1;
      }
      assert order[i..] == [] && sent + [] == sent;
    }

    /**
      One cycle of `fetch_feeds`: each feed overwrites its entry in place when
      it answers 200, then the cache is broadcast; the first exception ends
      the cycle.
     */
    method FetchFeeds(inp: CycleInput) returns (outcome: CycleOutcome, sent: seq<Message>)
      requires IsListing(inp.order, clients)
      modifies this
      ensures var r := Cycle(old(Current()), old(clients), inp);
              Current() == r.store && clients == r.clients && sent == r.sent && outcome == r.outcome
    {
      if inp.quakes.Failed? {
        return Aborted(EarthquakeStage, NetworkError), [];
      }
      if inp.quakes.status == 200 {
        if inp.quakes.body.None? {
          return Aborted(EarthquakeStage, DecodeError), [];
        }
        var quakes := CollectQuakes(inp.quakes.body.value);
        if quakes.Err? {
          return Aborted(EarthquakeStage, quakes.exc), [];
        }
        earthquakes := quakes.value;
      }

      if inp.weather.Failed? {
        return Aborted(WeatherStage, NetworkError), [];
      }
      if inp.weather.status == 200 {
        if inp.weather.body.None? {
          return Aborted(WeatherStage, DecodeError), [];
        }
        var w := Weather(inp.weather.body.value);
        if w.Err? {
          return Aborted(WeatherStage, w.exc), [];
        }
        weather := w.value;
      }

      if inp.crypto.Failed? {
        return Aborted(CryptoStage, NetworkError), [];
      }
      if inp.crypto.status == 200 {
        if inp.crypto.body.None? {
          return Aborted(CryptoStage, DecodeError), [];
        }
        var c := Crypto(inp.crypto.body.value);
        if c.Err? {
          return Aborted(CryptoStage, c.exc), [];
        }
        crypto := c.value;
      }

      var failed;
      sent, failed := BroadcastStore(inp.order, inp.send);
      outcome := if failed then Aborted(BroadcastStage, SendError) else Completed;
    }
  }
}
