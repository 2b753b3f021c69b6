/** The generation-price resolver against the XM market-data API: the
    metric catalogue (normalised, cached in one slot), the choice of the
    national spot-price metric, the bounded backward scan over daily
    windows, and the fallback to the configured reference price.

    The network is an oracle: the `/lists` call is a `Result<Json>` and the
    `/daily` call a function from the query to a `Result<Json>` (an `Err`
    is whatever `_post` raises: transport failure, status >= 400, a body
    that is not JSON). `today` is a day number. */
module XmApi {
  import opened Py
  import opened Text

  const DefaultMetricId: string := "PPPrecBolsNaci"
  const MaxWindows: nat := 5
  const WindowDays: nat := 3
  const DailyEntity: string := "Sistema"
  const EntitiesKey: string := "DailyEntities"
  const FallbackDefault: real := 320.5
  const SourceXm: string := "XM"
  const SourceRespaldo: string := "Respaldo local (config.json)"

  // ---------------------------------------------------------------------
  // Catalogue normalisation
  // ---------------------------------------------------------------------

  /** One normalised metric descriptor; `raw` keeps the item as received. */
  datatype Descriptor = Descriptor(
    metricId: Json,
    metricName: Json,
    entity: Json,
    kind: Json,
    url: Json,
    metricUnits: Json,
    raw: Json)

  /** `item.get(english) or item.get(spanish)`. */
  function Field(item: map<string, Json>, english: string, spanish: string): (v: Json)
    ensures Truthy(Get(item, english)) ==> v == item[english]
    ensures !Truthy(Get(item, english)) && spanish in item ==> v == item[spanish]
    ensures !Truthy(Get(item, english)) && spanish !in item ==> v == JNull
  {
    Or(Get(item, english), Get(item, spanish))
  }

  function Describe(item: map<string, Json>): Descriptor
  {
    Descriptor(
      Field(item, "MetricId", "Codigo"),
      Field(item, "MetricName", "NombreMetrica"),
      Field(item, "Entity", "Desagregacion"),
      Field(item, "Type", "Tipo"),
      Field(item, "Url", "URL"),
      Field(item, "MetricUnits", "Unidades"),
      JObj(item))
  }

  /** The list the normaliser iterates: `Data`, else `data`, else `List`,
      else the empty list. The response must be a dict (`.get`), and the
      chosen value must be a list: a truthy string, dict, number or True
      either is not iterable or yields items without `.get`. */
  function CatalogueItems(resp: Json): (r: Result<seq<Json>>)
    ensures !resp.JObj? ==> r.Err?
    ensures resp.JObj? && Truthy(Get(resp.fields, "Data")) ==>
              (r.Ok? <==> resp.fields["Data"].JArr?)
              && (r.Ok? ==> r.value == resp.fields["Data"].items)
    ensures resp.JObj? && !Truthy(Get(resp.fields, "Data")) && Truthy(Get(resp.fields, "data")) ==>
              (r.Ok? <==> resp.fields["data"].JArr?)
              && (r.Ok? ==> r.value == resp.fields["data"].items)
    ensures resp.JObj? && !Truthy(Get(resp.fields, "Data")) && !Truthy(Get(resp.fields, "data"))
            && Truthy(Get(resp.fields, "List")) ==>
              (r.Ok? <==> resp.fields["List"].JArr?)
              && (r.Ok? ==> r.value == resp.fields["List"].items)
    ensures (resp.JObj? && !Truthy(Get(resp.fields, "Data")) && !Truthy(Get(resp.fields, "data"))
             && !Truthy(Get(resp.fields, "List"))) ==> r == Ok([])
  {
    if !resp.JObj? then Err(AttributeError)
    else
      var m := resp.fields;
      match Or(Or(Or(Get(m, "Data"), Get(m, "data")), Get(m, "List")), JArr([]))
      case JArr(xs) => Ok(xs)
      case JStr(_) => Err(AttributeError)
      case JObj(_) => Err(AttributeError)
      case _ => Err(TypeError)
  }

  /** The normalising loop: one descriptor per item, in order; an item
      that is not a dict raises. */
  function DescribeAll(items: seq<Json>): (r: Result<seq<Descriptor>>)
    ensures r.Ok? <==> forall i :: 0 <= i < |items| ==> items[i].JObj?
    ensures r.Ok? ==> |r.value| == |items|
    ensures r.Ok? ==> forall i :: 0 <= i < |items| ==> r.value[i] == Describe(items[i].fields)
  {
    if |items| == 0 then Ok([])
    else if !items[0].JObj? then Err(AttributeError)
    else match DescribeAll(items[1..])
      case Err(f) => Err(f)
      case Ok(rest) => Ok([Describe(items[0].fields)] + rest)
  }

  /** The normalised catalogue of a `/lists` response. */
  function Normalise(resp: Json): (r: Result<seq<Descriptor>>)
    ensures r.Ok? <==> CatalogueItems(resp).Ok?
                       && forall i :: 0 <= i < |CatalogueItems(resp).value| ==> CatalogueItems(resp).value[i].JObj?
    ensures r.Ok? ==> |r.value| == |CatalogueItems(resp).value|
    ensures r.Ok? ==> forall i :: 0 <= i < |r.value| ==>
                        r.value[i] == Describe(CatalogueItems(resp).value[i].fields)
  {
    match CatalogueItems(resp)
    case Err(f) => Err(f)
    case Ok(items) => DescribeAll(items)
  }

  // ---------------------------------------------------------------------
  // One-slot catalogue cache
  // ---------------------------------------------------------------------

  /** The process-wide slot; `None` until the first successful fetch. */
  datatype Cache = Cache(items: Option<seq<Descriptor>>)

  /** What `listar_metricas_xm` returns (or raises), the cache after the
      call, and whether the `/lists` endpoint was called. */
  datatype Listing = Listing(result: Result<seq<Descriptor>>, cache: Cache, fetched: bool)

  /** `listar_metricas_xm(force)`: `lists` is what the `/lists` call
      would return; it is consulted only when the call is made. */
  function ListarMetricas(cache: Cache, force: bool, lists: Result<Json>): (r: Listing)
    ensures !force && cache.items.Some? ==> r == Listing(Ok(cache.items.value), cache, false)
    ensures force || cache.items.None? ==> r.fetched
    ensures r.fetched && lists.Err? ==> r.result == Err(lists.error)
    ensures r.fetched && lists.Ok? ==> r.result == Normalise(lists.value)
    ensures r.fetched && r.result.Ok? ==> r.cache == Cache(Some(r.result.value))
    ensures r.result.Err? ==> r.cache == cache
  {
    if !force && cache.items.Some? then Listing(Ok(cache.items.value), cache, false)
    else match lists
      case Err(f) => Listing(Err(f), cache, true)
      case Ok(body) =>
        match Normalise(body)
        case Err(f) => Listing(Err(f), cache, true)
        case Ok(ms) => Listing(Ok(ms), Cache(Some(ms)), true)
  }

  /** After a successful fetch, a non-forced call is served from the cache
      whatever the endpoint would now answer, and a forced one fetches again. */
  lemma CacheServesUntilForced(cache: Cache, force: bool, lists: Result<Json>, later: Result<Json>)
    requires ListarMetricas(cache, force, lists).result.Ok?
    ensures var first := ListarMetricas(cache, force, lists);
            var again := ListarMetricas(first.cache, false, later);
            !again.fetched && again.result == first.result && again.cache == first.cache
    ensures var first := ListarMetricas(cache, force, lists);
            ListarMetricas(first.cache, true, later).fetched
  {
  }

  // ---------------------------------------------------------------------
  // Metric selection
  // ---------------------------------------------------------------------

  /** `str(v or "")` for the values a catalogue carries. A truthy number,
      list or dict renders as the empty text here (see README). */
  function MatchText(v: Json): string
  {
    match Or(v, JStr(""))
    case JStr(s) => s
    case JBool(b) => if b then "True" else "False"
    case _ => ""
  }

  predicate IdMatches(d: Descriptor)
  {
    var mid := Lower(MatchText(d.metricId));
    mid == "ppprecbolsnaci" || mid == "precbolsnaci"
  }

  predicate NameMatches(d: Descriptor)
  {
    var name := Lower(MatchText(d.metricName));
    Contains(name, "precio") && Contains(name, "bolsa") && Contains(name, "nacional")
  }

  /** `_pick_metric_precio_bolsa`: the first descriptor matched by id;
      failing that, the first matched by name; failing that, none. */
  function PickMetric(ms: seq<Descriptor>): (r: Option<Descriptor>)
    ensures (exists i :: 0 <= i < |ms| && IdMatches(ms[i])) ==>
              exists i :: 0 <= i < |ms| && IdMatches(ms[i]) && r == Some(ms[i])
                          && forall j :: 0 <= j < i ==> !IdMatches(ms[j])
    ensures (forall i :: 0 <= i < |ms| ==> !IdMatches(ms[i])) && (exists i :: 0 <= i < |ms| && NameMatches(ms[i])) ==>
              exists i :: 0 <= i < |ms| && NameMatches(ms[i]) && r == Some(ms[i])
                          && forall j :: 0 <= j < i ==> !NameMatches(ms[j])
    ensures r.None? <==> forall i :: 0 <= i < |ms| ==> !IdMatches(ms[i]) && !NameMatches(ms[i])
  {
    if |ms| == 0 then None
    else match FindFirst(ms, IdMatches)
      case Some(i) => Some(ms[i])
      case None =>
        match FindFirst(ms, NameMatches)
        case Some(i) => Some(ms[i])
        case None => None
  }

  /** The id put in the daily queries: the chosen descriptor's `MetricId`
      (a key every descriptor has, possibly None), else the default. */
  function QueriedId(pick: Option<Descriptor>): Json
  {
    match pick
    case Some(d) => d.metricId
    case None => JStr(DefaultMetricId)
  }

  // ---------------------------------------------------------------------
  // Backward scan over daily windows
  // ---------------------------------------------------------------------

  /** The body of one `/daily` request. */
  datatype Query = Query(metricId: Json, startDate: int, endDate: int, entity: string)

  /** Window k (0-based) ends k days before today and spans 3 days. */
  function Window(id: Json, today: int, k: nat): (q: Query)
    ensures q.endDate == today - k && q.startDate == q.endDate - WindowDays
    ensures q.metricId == id && q.entity == DailyEntity
  {
    Query(id, today - k - WindowDays, today - k, DailyEntity)
  }

  /** The outcome of looking for a price in part of a response: a value,
      nothing yet, or an exception. */
  datatype Probe = Found(value: real) | Nothing | Crash

  /** One sub-entity: its `Value` if not None (0 counts), converted by `float`. */
  function EntityValue(ent: Json): Probe
  {
    if !ent.JObj? then Crash
    else
      var v := Get(ent.fields, "Value");
      if v == JNull then Nothing
      else match ToFloat(v)
        case Some(x) => Found(x)
        case None => Crash
  }

  /** A `Value` of 0 is a price (the test is `is not None`), a missing or
      null one is not, and a number is read as itself. */
  lemma CeroEsPrecio(x: real)
    ensures EntityValue(JObj(map["Value" := JNum(0.0)])) == Found(0.0)
    ensures EntityValue(JObj(map["Value" := JNum(x)])) == Found(x)
    ensures EntityValue(JObj(map["Value" := JNull])) == Nothing
    ensures EntityValue(JObj(map[])) == Nothing
  {
  }

  /** The inner loop, first to last, stopping at the first entity that settles. */
  function ScanEntities(es: seq<Json>): (p: Probe)
    ensures p != Nothing ==> exists i :: 0 <= i < |es| && EntityValue(es[i]) == p
                                         && forall j :: 0 <= j < i ==> EntityValue(es[j]) == Nothing
    ensures p == Nothing <==> forall j :: 0 <= j < |es| ==> EntityValue(es[j]) == Nothing
  {
    if |es| == 0 then Nothing
    else match EntityValue(es[0])
      case Nothing => ScanEntities(es[1..])
      case p => p
  }

  /** `for ent in item["DailyEntities"]` over whatever the key holds. */
  function ScanContainer(v: Json): Probe
  {
    match v
    case JArr(es) => ScanEntities(es)
    case JStr(s) => if |s| == 0 then Nothing else Crash
    case JObj(m) => if |m| == 0 then Nothing else Crash
    case _ => Crash
  }

  /** One item: skipped unless `"DailyEntities" in item`. A dict item that
      has the key is settled by the first entity with a value in its list;
      a non-list under the key is iterated as Python would, so only an empty
      string or dict passes. */
  function ScanItem(item: Json): (p: Probe)
    ensures item.JObj? && EntitiesKey !in item.fields ==> p == Nothing
    ensures item.JObj? && EntitiesKey in item.fields && item.fields[EntitiesKey].JArr? ==>
              (p == Nothing <==> forall j :: 0 <= j < |item.fields[EntitiesKey].items| ==>
                                   EntityValue(item.fields[EntitiesKey].items[j]) == Nothing)
    ensures item.JNull? || item.JBool? || item.JNum? ==> p == Crash
  {
    match item
    case JObj(m) => if EntitiesKey in m then ScanContainer(m[EntitiesKey]) else Nothing
    case JArr(xs) => if JStr(EntitiesKey) in xs then Crash else Nothing
    case JStr(s) => if Contains(s, EntitiesKey) then Crash else Nothing
    case _ => Crash
  }

  /** `for item in reversed(items[..n])`: indices n-1 down to 0, stopping at
      the first item that settles. */
  function ScanItemsBelow(items: seq<Json>, n: nat): (p: Probe)
    requires n <= |items|
    ensures p != Nothing ==> exists i :: 0 <= i < n && ScanItem(items[i]) == p
                                         && forall j :: i < j < n ==> ScanItem(items[j]) == Nothing
    ensures p == Nothing <==> forall j :: 0 <= j < n ==> ScanItem(items[j]) == Nothing
  {
    if n == 0 then Nothing
    else match ScanItem(items[n - 1])
      case Nothing => ScanItemsBelow(items, n - 1)
      case p => p
  }

  /** One `/daily` response: `resp_json.get("Items") or []`, scanned in
      reverse. A string yields one-character items, which never contain the
      key; a dict yields its keys. */
  function ScanResponse(body: Json): Probe
  {
    if !body.JObj? then Crash
    else match Or(Get(body.fields, "Items"), JArr([]))
      case JArr(xs) => ScanItemsBelow(xs, |xs|)
      case JStr(_) => Nothing
      case JObj(m) => if exists k :: k in m && Contains(k, EntitiesKey) then Crash else Nothing
      case _ => Crash
  }

  /** What querying window `q` produces. */
  function WindowProbe(daily: Query -> Result<Json>, q: Query): Probe
  {
    match daily(q)
    case Err(_) => Crash
    case Ok(body) => ScanResponse(body)
  }

  /** The probe of every window against the `/daily` oracle. */
  function ProbeOf(daily: Query -> Result<Json>): Query -> Probe
  {
    q => WindowProbe(daily, q)
  }

  datatype ScanEnd = Priced(value: real) | Exhausted | Failed

  /** The queries issued, in order, and how the scan ended. */
  datatype Scan = Scan(queries: seq<Query>, end: ScanEnd)

  /** The `while dias_retroceso < 5 and valor is None` loop from window k
      on, `probe(q)` being what querying window `q` produces. */
  function ScanFrom(probe: Query -> Probe, id: Json, today: int, k: nat): (s: Scan)
    requires k <= MaxWindows
    decreases MaxWindows - k
    ensures |s.queries| <= MaxWindows - k
    ensures forall j :: 0 <= j < |s.queries| ==> s.queries[j] == Window(id, today, k + j)
    ensures forall j :: 0 <= j < |s.queries| - 1 ==> probe(s.queries[j]) == Nothing
    ensures s.end.Priced? ==> |s.queries| > 0
                              && probe(s.queries[|s.queries| - 1]) == Found(s.end.value)
    ensures s.end.Failed? ==> |s.queries| > 0 && probe(s.queries[|s.queries| - 1]) == Crash
    ensures s.end.Exhausted? <==> |s.queries| == MaxWindows - k
                                  && forall j :: 0 <= j < |s.queries| ==> probe(s.queries[j]) == Nothing
  {
    if k == MaxWindows then Scan([], Exhausted)
    else
      var q := Window(id, today, k);
      match probe(q)
      case Found(v) => Scan([q], Priced(v))
      case Crash => Scan([q], Failed)
      case Nothing =>
        var rest := ScanFrom(probe, id, today, k + 1);
        Scan([q] + rest.queries, rest.end)
  }

  // ---------------------------------------------------------------------
  // Fallback and the whole resolution
  // ---------------------------------------------------------------------

  /** `float(cfg.get("tarifas", {}).get("generacion", {}).get("valor_kWh", 320.5))`.
      Every level must be a dict; the value must convert. */
  function FallbackPrice(cfg: Json): (r: Result<real>)
    ensures cfg == JObj(map[]) ==> r == Ok(FallbackDefault)
    ensures !cfg.JObj? ==> r.Err?
  {
    if !cfg.JObj? then Err(AttributeError)
    else
      var tarifas := GetOr(cfg.fields, "tarifas", JObj(map[]));
      if !tarifas.JObj? then Err(AttributeError)
      else
        var gen := GetOr(tarifas.fields, "generacion", JObj(map[]));
        if !gen.JObj? then Err(AttributeError)
        else
          var v := GetOr(gen.fields, "valor_kWh", JNum(FallbackDefault));
          match ToFloat(v)
          case Some(x) => Ok(x)
          case None => Err(if v.JStr? then ValueError("could not convert string to float") else TypeError)
  }

  function GenerationConfig(v: Json): Json
  {
    JObj(map["tarifas" := JObj(map["generacion" := JObj(map["valor_kWh" := v])])])
  }

  /** The configured value is used as is, 0 included; a missing value gives
      320.5; a null value, or a `tarifas` or `generacion` entry that is not
      a dict, makes the fallback itself raise. */
  lemma FallbackCases(x: real)
    ensures FallbackPrice(GenerationConfig(JNum(x))) == Ok(x)
    ensures FallbackPrice(JObj(map["tarifas" := JObj(map[])])) == Ok(FallbackDefault)
    ensures FallbackPrice(GenerationConfig(JNull)).Err?
    ensures FallbackPrice(JObj(map["tarifas" := JNull])).Err?
    ensures FallbackPrice(JObj(map["tarifas" := JObj(map["generacion" := JNull])])).Err?
  {
  }

  /** A resolved price and its provenance label. */
  datatype Price = Price(value: real, source: string)

  /** The outcome of a resolution (a price or the exception the fallback
      raised), the cache afterwards, and the daily queries issued. The
      catalogue is stored before the scan starts, so the cache afterwards is
      the listing's whatever the scan and the fallback do. */
  datatype Resolution = Resolution(result: Result<Price>, cache: Cache, queries: seq<Query>)

  /** The fallback branch: the configured price, labelled as local. */
  function Respaldo(cfg: Json): Result<Price>
  {
    match FallbackPrice(cfg)
    case Ok(v) => Ok(Price(v, SourceRespaldo))
    case Err(f) => Err(f)
  }

  /** `obtener_precio_bolsa_xm`. Every exception of the catalogue, the
      selection and the scan ends in the fallback; only reading the fallback
      itself can raise. */
  function ObtenerPrecioBolsa(cache: Cache, lists: Result<Json>, daily: Query -> Result<Json>,
                              today: int, cfg: Json): (r: Resolution)
    ensures r.cache == ListarMetricas(cache, false, lists).cache
    ensures ListarMetricas(cache, false, lists).result.Err? ==> r.queries == [] && r.result == Respaldo(cfg)
    ensures var listing := ListarMetricas(cache, false, lists);
            listing.result.Ok? ==>
              var scan := ScanFrom(ProbeOf(daily), QueriedId(PickMetric(listing.result.value)), today, 0);
              && r.queries == scan.queries
              && (scan.end.Priced? ==> r.result == Ok(Price(scan.end.value, SourceXm)))
              && (!scan.end.Priced? ==> r.result == Respaldo(cfg))
  {
    var listing := ListarMetricas(cache, false, lists);
    match listing.result
    case Err(_) => Resolution(Respaldo(cfg), listing.cache, [])
    case Ok(ms) =>
      var id := QueriedId(PickMetric(ms));
      var scan := ScanFrom(ProbeOf(daily), id, today, 0);
      match scan.end
      case Priced(v) => Resolution(Ok(Price(v, SourceXm)), listing.cache, scan.queries)
      case _ => Resolution(Respaldo(cfg), listing.cache, scan.queries)
  }

  /** What a resolution issues and returns: at most 5 queries, window j
      spanning the 3 days up to today - j; every window but the last empty;
      a price labelled XM is the one the last window found; any other price
      is the configured fallback, and any exception is the fallback's. */
  lemma ResolucionCoherente(cache: Cache, lists: Result<Json>, daily: Query -> Result<Json>, today: int, cfg: Json)
    ensures var r := ObtenerPrecioBolsa(cache, lists, daily, today, cfg);
            && |r.queries| <= MaxWindows
            && (forall j :: 0 <= j < |r.queries| ==>
                  r.queries[j].endDate == today - j
                  && r.queries[j].startDate == today - j - WindowDays
                  && r.queries[j].entity == DailyEntity)
            && (forall j :: 0 <= j < |r.queries| - 1 ==> WindowProbe(daily, r.queries[j]) == Nothing)
            && (r.result.Ok? ==> r.result.value.source == SourceXm || r.result.value.source == SourceRespaldo)
            && (r.result.Ok? && r.result.value.source == SourceXm ==>
                  |r.queries| > 0 && WindowProbe(daily, r.queries[|r.queries| - 1]) == Found(r.result.value.value))
            && (r.result.Ok? && r.result.value.source == SourceRespaldo ==> FallbackPrice(cfg) == Ok(r.result.value.value))
            && (r.result.Err? ==> FallbackPrice(cfg) == Err(r.result.error))
  {
    var listing := ListarMetricas(cache, false, lists);
    if listing.result.Ok? {
      var scan := ScanFrom(ProbeOf(daily), QueriedId(PickMetric(listing.result.value)), today, 0);
      assert SourceXm != SourceRespaldo;
    }
  }

  /** The scan from window k stops at the first window j that settles on a
      price, after issuing windows k..j. */
  lemma {:induction false} ScanStopsAtFirstPrice(probe: Query -> Probe, id: Json, today: int, k: nat, j: nat, v: real)
    requires k <= j < MaxWindows
    requires forall i :: k <= i < j ==> probe(Window(id, today, i)) == Nothing
    requires probe(Window(id, today, j)) == Found(v)
    ensures ScanFrom(probe, id, today, k).end == Priced(v)
    ensures |ScanFrom(probe, id, today, k).queries| == j - k + 1
    decreases j - k
  {
    if k < j {
      ScanFromEmptyWindow(probe, id, today, k);
      ScanStopsAtFirstPrice(probe, id, today, k + 1, j, v);
    } else {
      ScanFromPricedWindow(probe, id, today, k, v);
    }
  }

  /** A window with a price ends the scan with one query. */
  lemma ScanFromPricedWindow(probe: Query -> Probe, id: Json, today: int, k: nat, v: real)
    requires k < MaxWindows && probe(Window(id, today, k)) == Found(v)
    ensures ScanFrom(probe, id, today, k).end == Priced(v)
    ensures |ScanFrom(probe, id, today, k).queries| == 1
  {
  }

  /** An empty window is followed by the scan from the next one. */
  lemma ScanFromEmptyWindow(probe: Query -> Probe, id: Json, today: int, k: nat)
    requires k < MaxWindows && probe(Window(id, today, k)) == Nothing
    ensures ScanFrom(probe, id, today, k).end == ScanFrom(probe, id, today, k + 1).end
    ensures |ScanFrom(probe, id, today, k).queries| == 1 + |ScanFrom(probe, id, today, k + 1).queries|
  {
  }

  /** Once the catalogue is available, a price found in window j after
      empty windows 0..j-1 is the result, labelled XM, and no later window
      is queried. */
  lemma PrecioEncontradoEsXm(cache: Cache, lists: Result<Json>, daily: Query -> Result<Json>,
                             today: int, cfg: Json, j: nat, v: real)
    requires ListarMetricas(cache, false, lists).result.Ok?
    requires j < MaxWindows
    requires var id := QueriedId(PickMetric(ListarMetricas(cache, false, lists).result.value));
             && (forall i :: 0 <= i < j ==> WindowProbe(daily, Window(id, today, i)) == Nothing)
             && WindowProbe(daily, Window(id, today, j)) == Found(v)
    ensures ObtenerPrecioBolsa(cache, lists, daily, today, cfg).result == Ok(Price(v, SourceXm))
    ensures |ObtenerPrecioBolsa(cache, lists, daily, today, cfg).queries| == j + 1
  {
    var id := QueriedId(PickMetric(ListarMetricas(cache, false, lists).result.value));
    ScanStopsAtFirstPrice(ProbeOf(daily), id, today, 0, j, v);
  }

  /** The queries of a resolution are exactly the windows 0, 1, ... for the
      id chosen from the catalogue. */
  lemma QueriesUseChosenId(cache: Cache, lists: Result<Json>, daily: Query -> Result<Json>, today: int, cfg: Json)
    requires ListarMetricas(cache, false, lists).result.Ok?
    ensures var r := ObtenerPrecioBolsa(cache, lists, daily, today, cfg);
            var id := QueriedId(PickMetric(ListarMetricas(cache, false, lists).result.value));
            forall j :: 0 <= j < |r.queries| ==> r.queries[j] == Window(id, today, j)
  {
  }
}
