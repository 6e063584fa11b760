/**
  The three feed normalizers of the poll cycle (earthquake, weather, crypto)
  and the per-feed step that decides, from one HTTP outcome, whether the
  cache entry is written, left alone, or the cycle raises.
 */
module Feeds {
  import opened Values

  /** What one `client.get(...)` produced. */
  datatype Fetch =
    | Failed                                      // the request itself raised
    | Response(status: int, body: Option<Json>)   // body None: `.json()` raises

  /**
    One feed's part of a cycle: `Ok(None)` leaves the entry alone,
    `Ok(Some(v))` writes `v`, `Err(e)` raises `e` out of the cycle.
   */
  function Step<T>(f: Fetch, normalize: Json -> Result<T>): (r: Result<Option<T>>)
    ensures (r.Ok? && r.value.None?) <==> (f.Response? && f.status != 200)
    ensures r.Ok? && r.value.Some? <==>
              f.Response? && f.status == 200 && f.body.Some? && normalize(f.body.value).Ok?
    ensures r.Ok? && r.value.Some? ==> normalize(f.body.value) == Ok(r.value.value)
    ensures r.Err? && f.Response? ==> f.status == 200 && (f.body.None? || normalize(f.body.value) == Err(r.exc))
  {
    match f
    case Failed => Err(NetworkError)
    case Response(status, body) =>
      if status != 200 then Ok(None)
      else match body
        case None => Err(DecodeError)
        case Some(j) =>
          match normalize(j)
          case Ok(v) => Ok(Some(v))
          case Err(e) => Err(e)
  }

  // ---------------------------------------------------------------- earthquakes

  /** The f-string `M{mag} – {place}` (an en dash between the two parts). */
  function Describe(mag: Json, place: Json): string
  {
    "M" + Show(mag) + " \U{2013} " + Show(place)
  }

  /** A feature the loop body can read: a dict whose "properties" is a dict. */
  predicate WellFormedFeature(f: Json)
  {
    f.JObj? && "properties" in f.fields && f.fields["properties"].JObj?
  }

  /** The loop body for one feature: read "mag" and "place" from its properties. */
  function QuakeLine(feature: Json): (r: Result<string>)
    ensures r.Ok? <==> WellFormedFeature(feature)
    ensures r.Ok? ==>
              var props := feature.fields["properties"].fields;
              r.value == Describe(Field(props, "mag"), Field(props, "place"))
    ensures r.Err? ==> r.exc == (if feature.JObj? && "properties" !in feature.fields then KeyError
                                 else if feature.JObj? then AttributeError
                                 else TypeError)
  {
    var props :- Index(feature, "properties");
    var mag :- Get(props, "mag", JNull);
    // `props` is a dict once its first `.get` returned, so the second cannot raise
    Ok(Describe(mag, Field(props.fields, "place")))
  }

  /** The whole loop over the features, stopping at the first one that raises. */
  function QuakeLines(features: seq<Json>): (r: Result<seq<string>>)
    ensures r.Ok? <==> forall i :: 0 <= i < |features| ==> WellFormedFeature(features[i])
    ensures r.Ok? ==> |r.value| == |features| &&
                      forall i :: 0 <= i < |features| ==> QuakeLine(features[i]) == Ok(r.value[i])
  {
    if features == [] then Ok([])
    else
      var line :- QuakeLine(features[0]);
      var rest :- QuakeLines(features[1..]);
      Ok([line] + rest)
  }

  /**
    The items `for feature in v` hands to the loop body. Iterating a
    non-empty string or dict yields strings, and the body's
    `feature["properties"]` raises TypeError on the first of them.
   */
  function Features(v: Json): Result<seq<Json>>
  {
    match v
    case JArr(items) => Ok(items)
    case JStr(s) => if s == "" then Ok([]) else Err(TypeError)
    case JObj(m) => if m == map[] then Ok([]) else Err(TypeError)
    case _ => Err(TypeError)
  }

  /** The earthquake normalizer: one line per feature of the payload. */
  function Quakes(payload: Json): (r: Result<seq<string>>)
    ensures !payload.JObj? ==> r == Err(AttributeError)
    ensures payload.JObj? && "features" !in payload.fields ==> r == Ok([])
    ensures payload.JObj? && "features" in payload.fields && payload.fields["features"].JArr? ==>
              r == QuakeLines(payload.fields["features"].items)
  {
    var features :- Get(payload, "features", JArr([]));
    var items :- Features(features);
    QuakeLines(items)
  }

  /** The earthquake branch of the cycle: read "features", then run the append loop. */
  method CollectQuakes(payload: Json) returns (r: Result<seq<string>>)
    ensures r == Quakes(payload)
  {
    var features :- Get(payload, "features", JArr([]));
    var items :- Features(features);
    r := CollectLines(items);
  }

  /** The append loop that builds the `quakes` list, one line per feature. */
  method CollectLines(fs: seq<Json>) returns (r: Result<seq<string>>)
    ensures r == QuakeLines(fs)
  {
    var quakes: seq<string> := [];
    var i := 0;
    while i < |fs|
      invariant 0 <= i <= |fs|
      invariant forall j :: 0 <= j < i ==> WellFormedFeature(fs[j])
      invariant |quakes| == i && forall j :: 0 <= j < i ==> QuakeLine(fs[j]) == Ok(quakes[j])
    {
      var line := QuakeLine(fs[i]);
      if line.Err? {
        QuakeLinesStopsAt(fs, i);
        return Err(line.exc);
      }
      quakes := quakes + [line.value];
      i := i + 1;
    }
    var lines := QuakeLines(fs);
    assert lines.Ok? && |lines.value| == |quakes|;
    assert forall j :: 0 <= j < |fs| ==> lines.value[j] == quakes[j];
    assert lines.value == quakes;
    r := Ok(quakes);
  }

  /** The loop raises the exception of the first feature that is not well formed. */
  lemma {:induction false} QuakeLinesStopsAt(features: seq<Json>, k: nat)
    requires k < |features| && !WellFormedFeature(features[k])
    requires forall j :: 0 <= j < k ==> WellFormedFeature(features[j])
    ensures QuakeLines(features) == Err(QuakeLine(features[k]).exc)
  {
    if k > 0 {
      assert forall j :: 0 <= j < k - 1 ==> features[1..][j] == features[j + 1];
      QuakeLinesStopsAt(features[1..], k - 1);
    }
  }

  /** When the loop raises, it raises the exception of the first feature that is not well formed. */
  lemma {:induction false} QuakeLinesFirstError(features: seq<Json>)
    requires QuakeLines(features).Err?
    ensures exists k :: 0 <= k < |features| && !WellFormedFeature(features[k]) &&
                        (forall j :: 0 <= j < k ==> WellFormedFeature(features[j])) &&
                        QuakeLine(features[k]) == Err(QuakeLines(features).exc)
  {
    if QuakeLine(features[0]).Err? {
      assert !WellFormedFeature(features[0]);
    } else {
      QuakeLinesFirstError(features[1..]);
      var k :| 0 <= k < |features[1..]| && !WellFormedFeature(features[1..][k]) &&
               (forall j :: 0 <= j < k ==> WellFormedFeature(features[1..][j])) &&
               QuakeLine(features[1..][k]) == Err(QuakeLines(features[1..]).exc);
      assert forall j :: 0 < j < k + 1 ==> features[j] == features[1..][j - 1];
      assert features[k + 1] == features[1..][k];
    }
  }

  // ---------------------------------------------------------------- weather

  /** The weather normalizer: `current_condition[0]` reduced to three keys. */
  function Weather(w: Json): (r: Result<map<string, Json>>)
    ensures r.Ok? ==> r.value.Keys == {"temp_c", "humidity", "desc"}
  {
    var conditions :- Get(w, "current_condition", JArr([JObj(map[])]));
    var current :- First(conditions);
    var temp :- Get(current, "temp_C", JNull);
    // `current` is a dict once its first `.get` returned, so the next two cannot raise
    var humidity := Field(current.fields, "humidity");
    var descs := if "weatherDesc" in current.fields then current.fields["weatherDesc"] else JArr([JObj(map[])]);
    var desc0 :- First(descs);
    var desc :- Get(desc0, "value", JNull);
    Ok(map["temp_c" := temp, "humidity" := humidity, "desc" := desc])
  }

  /** The record of nothing-known: every key present, every value None. */
  const UnknownWeather: map<string, Json> := map["temp_c" := JNull, "humidity" := JNull, "desc" := JNull]

  /** Whether `weatherDesc` can be read: it is absent, or its first item is a dict. */
  predicate DescReadable(current: map<string, Json>)
  {
    "weatherDesc" !in current || (First(current["weatherDesc"]).Ok? && First(current["weatherDesc"]).value.JObj?)
  }

  /** The description a current condition yields, when its `weatherDesc` can be read. */
  function DescOf(current: map<string, Json>): Json
    requires DescReadable(current)
  {
    if "weatherDesc" !in current then JNull
    else Field(First(current["weatherDesc"]).value.fields, "value")
  }

  /** A payload without `current_condition` yields the all-None record. */
  lemma WeatherDefaults(w: Json)
    requires w.JObj? && "current_condition" !in w.fields
    ensures Weather(w) == Ok(UnknownWeather)
  {
  }

  /**
    Once `current_condition[0]` is a dict, each key of the record is the
    matching source field, None when absent, and the normalizer raises
    exactly when `weatherDesc` cannot be read.
   */
  lemma WeatherReadsCurrent(w: Json, current: map<string, Json>)
    requires w.JObj? && "current_condition" in w.fields
    requires First(w.fields["current_condition"]) == Ok(JObj(current))
    ensures Weather(w).Ok? <==> DescReadable(current)
    ensures DescReadable(current) ==>
              Weather(w).value == map["temp_c" := Field(current, "temp_C"),
                                      "humidity" := Field(current, "humidity"),
                                      "desc" := DescOf(current)]
  {
  }

  /** The ways the weather normalizer raises before it reads any field. */
  lemma WeatherRaises(w: Json)
    ensures !w.JObj? ==> Weather(w) == Err(AttributeError)
    ensures w.JObj? && "current_condition" in w.fields && w.fields["current_condition"] == JArr([]) ==>
              Weather(w) == Err(IndexError)
    ensures w.JObj? && "current_condition" in w.fields && w.fields["current_condition"] == JNull ==>
              Weather(w) == Err(TypeError)
  {
  }

  // ---------------------------------------------------------------- crypto

  /** Whether `v[path[0]][path[1]]...` can be read without raising. */
  predicate HasPath(v: Json, path: seq<string>)
    decreases |path|
  {
    path == [] || (v.JObj? && path[0] in v.fields && HasPath(v.fields[path[0]], path[1..]))
  }

  /** The value at the end of a readable key path. */
  function At(v: Json, path: seq<string>): Json
    requires HasPath(v, path)
    decreases |path|
  {
    if path == [] then v else At(v.fields[path[0]], path[1..])
  }

  /** The crypto normalizer: `bpi.USD.rate` and `time.updated`, or the exception. */
  function Crypto(b: Json): (r: Result<map<string, Json>>)
    ensures r.Ok? <==> HasPath(b, ["bpi", "USD", "rate"]) && HasPath(b, ["time", "updated"])
    ensures r.Ok? ==> r.value == map["rate" := At(b, ["bpi", "USD", "rate"]),
                                     "updated" := At(b, ["time", "updated"])]
  {
    var bpi :- Index(b, "bpi");
    var usd :- Index(bpi, "USD");
    var rate :- Index(usd, "rate");
    var time :- Index(b, "time");
    var updated :- Index(time, "updated");
    Ok(map["rate" := rate, "updated" := updated])
  }

  /** A dict payload missing "bpi", or one whose rate reads but lacks "time", raises KeyError. */
  lemma CryptoMissingKey(b: Json)
    requires b.JObj?
    ensures "bpi" !in b.fields ==> Crypto(b) == Err(KeyError)
    ensures HasPath(b, ["bpi", "USD", "rate"]) && "time" !in b.fields ==> Crypto(b) == Err(KeyError)
  {
  }
}
