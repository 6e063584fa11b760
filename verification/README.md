# Realtime dashboard: a Dafny model of the poll-cache-broadcast core

The dashboard service (`main.py`) keeps a process-wide cache `data_store`
with three entries: `earthquakes`, a list of strings; `weather`, a dict;
and `crypto`, a dict. It also keeps a set `clients` of open websocket
connections. A background task `fetch_feeds` runs a loop. Each pass fetches
three public feeds (USGS earthquakes, wttr.in weather, a CoinDesk bitcoin
price), normalizes each answer into its cache entry, sends the whole cache
to every connection, and discards the connections that report
`WebSocketDisconnect`. `GET /data` returns the cache. The `/ws` endpoint
registers a connection, sends it the cache at once, and discards it when it
disconnects.

The model makes every outside effect an input:

- Each HTTP GET is a `Fetch`: either the request raised, or there was a
  response with a status and a decoded JSON value (`None` when `.json()`
  would raise).
- The order in which `list(clients)` lists the set is an input.
- Each `send_json` is a `SendOutcome`: delivered, `WebSocketDisconnect`, or
  any other exception.

With those inputs a pass of the loop is a deterministic transition:

- `values.dfy`: decoded JSON (`Json`), the Python exceptions a pass can
  raise (`Exc`), and the Python operations the feed code applies to
  payloads: `d.get(k, default)`, `d[k]`, `v[0]`, and `str(v)` inside an
  f-string. Each one raises the exception Python raises: `AttributeError`
  for `.get` on a non-dict, `KeyError` for a missing key, `IndexError` for
  `[0]` on an empty list, `TypeError` for subscripting a list, string or
  None with a string key.
- `feeds.dfy`: the three normalizers and `Step`, which turns one `Fetch`
  into "leave the entry", "write this value" or "raise". The earthquake
  normalizer's append loop is the method `CollectLines`. Its specification
  is the function `QuakeLines`.
- `registry.dfy`: connection handles, `add`/`discard`, and the broadcast
  pass as the function `Broadcast`, with lemmas about which connections it
  prunes and which ones it reaches.
- `dashboard.dfy`: the cache (`Snapshot`) and its JSON document, one pass
  of the loop as the function `Cycle`, a finite run of passes (`Run`), and
  the class `Service`. `Service` holds the cache entries and `clients` as
  fields that its methods update in place. `FetchFeeds` is proved equal to
  `Cycle`, `BroadcastStore` to `Broadcast`, and `GetCurrentData` returns
  the cache's JSON document.

The code puts all three fetches and the broadcast inside one `try`
(main.py:29-72), so the feeds do not fail independently. The first
exception in a pass skips every later feed and the
broadcast, and the entries already written in that pass stay written. The
broadcast catches only `WebSocketDisconnect` (main.py:70). Any other
exception from a send leaves the broadcast at that connection: connections
after it get nothing that pass, and none of them are pruned. The endpoint
adds the connection before its first send, not after (main.py:98-101). If
that first send raises something other than `WebSocketDisconnect`, the
connection stays registered. The model follows the code in all of these
places.

## Model

| member | source | states |
|---|---|---|
| Feeds.Step | main.py:32-36 | A non-200 response never writes and never raises. A write happens exactly when the status is 200, the body decodes and the normalizer returns, and the value written is the normalizer's result. An exception is a network error, a decode error, or the normalizer's own exception. |
| Feeds.QuakeLine | main.py:39-41 | A feature yields a line exactly when it is a dict whose "properties" is a dict. The line is `M{mag} – {place}`, with an absent mag or place shown as None. Otherwise the exception is KeyError (no "properties"), AttributeError ("properties" is not a dict) or TypeError (the feature is not a dict). |
| Feeds.QuakeLines | main.py:38-41 | The loop returns exactly when every feature is well formed. It then yields one line per feature, in feature order. |
| Feeds.QuakeLinesStopsAt | main.py:38-41 | The loop raises the exception of the first feature that is not well formed. Features after it are never read. |
| Feeds.QuakeLinesFirstError | main.py:38-41 | The converse: when the loop raises, there is a first feature that is not well formed, and the exception is that feature's. |
| Feeds.Quakes | main.py:36-41 | A payload that is not a dict raises AttributeError. A dict without "features" yields the empty list. A "features" list yields exactly the loop's result. |
| Feeds.CollectLines | main.py:37-41 | The append loop that builds `quakes` returns exactly `QuakeLines` of the features: the same list, or the same exception. |
| Feeds.CollectQuakes | main.py:36-41 | The earthquake branch as code returns exactly the earthquake normalizer's result. |
| Feeds.Weather | main.py:49-54 | A weather record that is produced has exactly the keys temp_c, humidity and desc. |
| Feeds.WeatherDefaults | main.py:49-54 | A dict without "current_condition" yields the record whose three values are all None. |
| Feeds.WeatherReadsCurrent | main.py:49-54 | Once `current_condition[0]` is a dict: temp_c and humidity are its "temp_C" and "humidity" fields, each None when absent. desc is `weatherDesc[0]["value"]`, or None when "weatherDesc" is absent. The normalizer raises exactly when "weatherDesc" is present but its first item is not a dict. |
| Feeds.WeatherRaises | main.py:48-49 | A non-dict payload raises AttributeError, an empty "current_condition" list raises IndexError, and a null one raises TypeError. |
| Feeds.Crypto | main.py:60-64 | The record is produced exactly when both `bpi.USD.rate` and `time.updated` can be read. It is then exactly `{rate: bpi.USD.rate, updated: time.updated}`. |
| Feeds.CryptoMissingKey | main.py:60-63 | A dict payload without "bpi" raises KeyError. So does one whose rate can be read but that has no "time". |
| Registry.Add | main.py:98 | After `add` the connection is registered, and no other membership changes. |
| Registry.Discard | main.py:105 | After `discard` the connection is not registered, and no other membership changes. Discard never raises. |
| Registry.DiscardIdempotent | main.py:105 | Discarding twice is the same as discarding once. Discarding an absent connection changes nothing. |
| Registry.Broadcast | main.py:67-71 | A broadcast pass only removes connections, never adds one. Every message it sends carries the given payload. |
| Registry.BroadcastPrunes | main.py:67-71 | When no send raises anything but WebSocketDisconnect, the pass completes. The registry loses exactly the connections whose send raised WebSocketDisconnect. The other listed connections receive the payload, in list order. |
| Registry.BroadcastStopsAt | main.py:67-72 | When a send at position k raises any other exception, the pass fails there. Only disconnections before k are pruned, and only connections before k receive the payload. |
| Registry.BroadcastKeepsLive | main.py:67-71 | Over the copy of the whole registry, a pass without other exceptions leaves exactly the registered connections that did not disconnect. |
| Registry.BroadcastExample | main.py:67-71 | With A, B, C registered and B disconnected: B alone is removed, and A and C receive the message. |
| Dashboard.SnapshotJson | main.py:18-22 | The cache's document is an object with exactly the keys earthquakes, weather and crypto. earthquakes is the entry's strings in order. weather and crypto are the entries' dicts. |
| Dashboard.SnapshotRoundTrip | main.py:91-93 | The document served reads back to exactly the cache: no entry is lost or changed. |
| Dashboard.SnapshotJsonOnto | main.py:91-93 | Every document of that shape is the document of the cache it reads back to. |
| Dashboard.InitialPayload | main.py:18-22 | Before any write the document is `{"earthquakes": [], "weather": {}, "crypto": {}}`. |
| Dashboard.CycleNotOkKeepsEntry | main.py:35-64 | In a pass, a feed whose response status is not 200 keeps its entry exactly as it was, whatever the other feeds do. |
| Dashboard.CycleAbortKeepsEarlierWrites | main.py:29-74 | When the earthquake step raises, the pass ends there with that exception and nothing changed. When the earthquake step returns and the weather step raises, the pass ends at the weather step with the weather exception, and only the earthquake write stays. The same holds for the crypto step, which keeps both earlier writes. An aborted pass sends nothing and leaves the registry untouched. |
| Dashboard.CycleWritesExactly | main.py:35-64 | When all three feed steps return, each entry is replaced exactly when its feed wrote, and the entries of the other feeds keep their previous values. |
| Dashboard.CycleQuakesDownOthersWrite | main.py:35-64 | If the earthquake feed answers 503 while weather and crypto write w and c, the cache becomes the old earthquakes with w and c. |
| Dashboard.CycleStoreIgnoresBroadcast | main.py:66-71 | The cache after a pass depends only on the three fetches. The registry and the send outcomes never change it. |
| Dashboard.CycleSendsStore | main.py:67-69 | Every message a pass sends is the cache as the pass leaves it. |
| Dashboard.CycleCompletes | main.py:29-71 | In a pass where all three feed steps return and no send raises anything but WebSocketDisconnect: the pass completes, the registry keeps exactly the connections that did not disconnect, and every delivered connection is reached in list order. |
| Dashboard.CycleAllWrite | main.py:35-71 | When all three feeds write, the pass replaces the whole cache and then broadcasts that cache. |
| Dashboard.EndToEnd | main.py:29-71 | From a fresh cache, two earthquakes, a weather answer and a crypto answer produce exactly `["M4.2 – 10km N of X", "M2.1 – 5km S of Y"]`, `{temp_c: "21", humidity: "40", desc: "Clear"}` and `{rate: "65000.00", updated: "Jan 1, 2024 00:00 UTC"}`. Both open connections receive that cache. |
| Dashboard.NeverAnsweredKeepsEntry | main.py:28-75 | Over any run of passes, a feed that never answers 200 keeps its entry, which on a fresh cache is the initial default. |
| Dashboard.LastEarthquakeWriteWins | main.py:28-75 | After a run, the earthquake entry is the list written by the last pass, whatever earlier passes raised. The loop goes on after an exception. |
| Dashboard.Service.constructor | main.py:18-24 | At startup the cache is empty and no connection is registered. |
| Dashboard.Service.GetCurrentData | main.py:91-93 | `/data` returns the cache's document and reads back to exactly the current cache. It has no side effect. |
| Dashboard.Service.Accept | main.py:97-105 | The connection is added, then sent the cache. If that send raises WebSocketDisconnect, the connection is discarded again. If it raises any other exception, the connection stays registered. |
| Dashboard.Service.Disconnect | main.py:102-105 | A disconnect during the keep-alive read discards exactly that connection. |
| Dashboard.Service.BroadcastStore | main.py:66-71 | The in-place broadcast loop leaves the registry and the sent messages exactly as `Broadcast` says. It changes only `clients`. |
| Dashboard.Service.FetchFeeds | main.py:29-74 | One pass, with entries overwritten in place, ends in exactly the cache, registry, messages and outcome that `Cycle` gives. |

## Left out

- The FastAPI app, the static-file mount, the index page and the websocket handshake `await websocket.accept()` (main.py:10-15, 83-87, 97) are framework and file I/O. `Service.Accept` starts after a successful handshake; a handshake that raises registers nothing, and that path is not modelled.
- The HTTP client, its 10-second timeout and the GETs (main.py:30-34, 46, 57) are network I/O. Their results are the `Fetch` inputs. An exception raised by creating or closing the client is not modelled.
- JSON decoding and `send_json` serialisation are library calls. A decoded body is a `Json` value, and a send is a `SendOutcome`. Objects are maps, so duplicate keys and key order are not modelled.
- The `while True` loop, `asyncio.sleep(60)` and `create_task` (main.py:28, 75, 78-81) are scheduling. One pass is `Cycle`, and a finite run of passes is `Run`.
- Interleavings between the endpoint and the poll task are concurrency, and so is the keep-alive `receive_text` loop (main.py:102-103). The loop's only effect, a disconnect, is the method `Disconnect`. Because the model is sequential, it does not capture a broadcast that reaches a connection before that connection's first message.
- The iteration order of `list(clients)` is unspecified. It is an input, `order`, which must list the registry exactly once.
- Values.Show: a number's `str()` rendering is kept as opaque text, because float formatting is out of scope. A list or dict used as a magnitude or place renders as a fixed placeholder, not Python's `repr`.
- Feeds.Features: iterating a non-empty string or dict as "features" goes straight to the `TypeError` that the first item raises in the loop body. The items are not listed one by one.
- The `print` logging of the exception (main.py:74) is output only. The exception kind is reported as the `Exc` in the pass's outcome.
- `except Exception` does not catch `BaseException`s such as task cancellation. They would end the loop and are not modelled.
