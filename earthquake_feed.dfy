/**
 * The earthquake fetcher of utils/utils.py: a loop that queries the USGS
 * event service over a one-year window and, while the answer holds more than
 * 2000 events, moves the start of the window 30 days later and asks again;
 * then a loop that flattens every GeoJSON feature of the final answer into a
 * flat earthquake record.
 *
 * Dates are day numbers, and the HTTP request together with the JSON decoding
 * is the function `api`, which maps a request to the decoded body.
 */
module EarthquakeFeed {
  import opened Wrappers

  /** Largest number of features the loop accepts in one response. */
  const Cap: nat := 2000
  /** The first window reaches this many days back from today. */
  const LookbackDays: int := 365
  /** How far the start of the window moves after an oversized answer. */
  const StepDays: int := 30
  /** The magnitude floor sent with every request. */
  const MinMagnitude: int := 3

  /** The query parameters of one request; the dates are day numbers. */
  datatype Request = Request(startDay: int, endDay: int, minMagnitude: int)

  /** The `properties` object of a GeoJSON feature. */
  datatype Properties = Properties(place: string, mag: real, time: int, tsunami: int, sig: int)

  /** The `geometry` object of a GeoJSON feature: GeoJSON order, [lon, lat, depth]. */
  datatype Geometry = Geometry(coordinates: seq<real>)

  datatype Feature = Feature(properties: Properties, geometry: Geometry)

  /** The decoded body of one answer: it has a `features` list or it has not. */
  datatype Response = NoFeaturesKey | Features(features: seq<Feature>)

  /** One flat row of the earthquake table. */
  datatype Earthquake = Earthquake(
    place: string, mag: real, time: int, tsunami: int, sig: int,
    latitude: real, longitude: real, depth: real)

  /**
   * How the query loop ends: with the features of an answer within the cap,
   * on an answer without a `features` key, or (only because the model bounds
   * the loop that the program leaves unbounded) after `fuel` oversized answers.
   * `attempts` counts the requests sent, the last one included.
   */
  datatype QueryOutcome =
    | Within(features: seq<Feature>, attempts: nat)
    | Malformed(attempts: nat)
    | GaveUp

  /** Why loading the earthquake table fails. */
  datatype LoadError =
    | MissingFeatures        // the ValueError raised on a body without `features`
    | ShortCoordinates(index: nat) // the IndexError of the feature at `index`
    | NoFinalResponse        // the unbounded loop did not end within the fuel
    | EmptyTable             // the KeyError on `time` of a table made from no features

  predicate Oversized(r: Response) {
    r.Features? && |r.features| > Cap
  }

  /**
   * The first request, magnitude 3 and above. The clock is read twice:
   * `endToday` is the day of the first reading (the end date), `startToday`
   * the day of the second (a year before it is the start date). The two
   * differ when midnight passes between the readings.
   */
  function FirstRequest(endToday: int, startToday: int): Request {
    Request(startToday - LookbackDays, endToday, MinMagnitude)
  }

  /**
   * With the second clock reading on the same day as the first, the first
   * window spans 365 days; when midnight passes between them, 364.
   */
  lemma FirstWindowSpan(endToday: int, startToday: int)
    requires endToday <= startToday <= endToday + 1
    ensures var first := FirstRequest(endToday, startToday);
      && first.endDay - first.startDay == LookbackDays - (startToday - endToday)
      && (first.endDay - first.startDay == 365 || first.endDay - first.startDay == 364)
  {
  }

  /** The request sent after `k` oversized answers to the requests before it. */
  function Shifted(req: Request, k: nat): Request {
    req.(startDay := req.startDay + StepDays * k)
  }

  /** Moves the count of requests sent by `k`, for an outcome seen from `k` steps later. */
  function Delayed(o: QueryOutcome, k: nat): QueryOutcome {
    match o
    case Within(fs, n) => Within(fs, n + k)
    case Malformed(n) => Malformed(n + k)
    case GaveUp => GaveUp
  }

  lemma ShiftedTwice(req: Request, i: nat, j: nat)
    ensures Shifted(Shifted(req, i), j) == Shifted(req, i + j)
  {
  }

  /**
   * The query loop as a function of its current request, sending at most
   * `fuel` requests. Its contract is the loop's partial correctness: every
   * answer but the last was oversized, the last is within the cap or lacks
   * `features`, and the request sent `k`-th is `Shifted(req, k)`.
   */
  function QueryFrom(api: Request -> Response, req: Request, fuel: nat): (r: QueryOutcome)
    decreases fuel
    ensures r.GaveUp? ==> forall k: nat :: k < fuel ==> Oversized(api(Shifted(req, k)))
    ensures !r.GaveUp? ==>
      && 1 <= r.attempts <= fuel
      && forall k: nat :: k < r.attempts - 1 ==> Oversized(api(Shifted(req, k)))
    ensures r.Within? ==>
      1 <= r.attempts && api(Shifted(req, r.attempts - 1)) == Features(r.features) && |r.features| <= Cap
    ensures r.Malformed? ==> 1 <= r.attempts && api(Shifted(req, r.attempts - 1)) == NoFeaturesKey
  {
    if fuel == 0 then GaveUp
    else
      match api(req)
      case NoFeaturesKey =>
        assert Shifted(req, 0) == req;
        Malformed(1)
      case Features(fs) =>
        if |fs| <= Cap then
          assert Shifted(req, 0) == req;
          Within(fs, 1)
        else
          var rest := QueryFrom(api, Shifted(req, 1), fuel - 1);
          assert forall k: nat :: Shifted(Shifted(req, 1), k) == Shifted(req, 1 + k);
          assert Shifted(req, 0) == req;
          assert forall k: nat :: 0 < k ==> Shifted(req, k) == Shifted(Shifted(req, 1), k - 1);
          Delayed(rest, 1)
  }

  /**
   * The converse of the contract of QueryFrom: when the first `n` answers
   * are oversized and answer `n` is not, the loop ends at request `n`.
   * The contract of QueryFrom pins the outcome down, so no induction is needed.
   */
  lemma QueryEndsAt(api: Request -> Response, req: Request, fuel: nat, n: nat)
    requires n < fuel
    requires forall k: nat :: k < n ==> Oversized(api(Shifted(req, k)))
    requires !Oversized(api(Shifted(req, n)))
    ensures QueryFrom(api, req, fuel) ==
      if api(Shifted(req, n)).NoFeaturesKey? then Malformed(n + 1)
      else Within(api(Shifted(req, n)).features, n + 1)
  {
  }

  /** When all `fuel` answers are oversized, the bounded loop gives up. */
  lemma QueryExhausted(api: Request -> Response, req: Request, fuel: nat)
    requires forall k: nat :: k < fuel ==> Oversized(api(Shifted(req, k)))
    ensures QueryFrom(api, req, fuel) == GaveUp
  {
  }

  /**
   * Bounding the loop only cuts it short: an outcome reached within `fuel`
   * requests is the outcome with any larger bound.
   */
  lemma QueryMoreFuel(api: Request -> Response, req: Request, fuel: nat, more: nat)
    requires fuel <= more
    requires !QueryFrom(api, req, fuel).GaveUp?
    ensures QueryFrom(api, req, more) == QueryFrom(api, req, fuel)
  {
  }

  /**
   * When the year-long window is oversized, the answer the loop keeps covers
   * a window that starts later and still ends on the first clock reading's
   * day, at magnitude 3.
   */
  lemma NarrowedWindow(api: Request -> Response, endToday: int, startToday: int, fuel: nat)
    requires Oversized(api(FirstRequest(endToday, startToday)))
    requires QueryFrom(api, FirstRequest(endToday, startToday), fuel).Within?
    ensures var q := QueryFrom(api, FirstRequest(endToday, startToday), fuel);
      && q.attempts >= 2
      && var last := Shifted(FirstRequest(endToday, startToday), q.attempts - 1);
      && last.startDay > startToday - LookbackDays
      && last.endDay == endToday
      && last.minMagnitude == MinMagnitude
  {
  }

  /**
   * The `while True` loop of load_earthquake_data, bounded by `fuel`
   * requests. The ghost `requests` records the requests sent, in order.
   */
  method FetchWithinCap(api: Request -> Response, endToday: int, startToday: int, fuel: nat)
    returns (outcome: QueryOutcome, ghost requests: seq<Request>)
    ensures outcome == QueryFrom(api, FirstRequest(endToday, startToday), fuel)
    ensures |requests| == if outcome.GaveUp? then fuel else outcome.attempts
    ensures forall k :: 0 <= k < |requests| ==> requests[k] == Shifted(FirstRequest(endToday, startToday), k)
    ensures |requests| > 0 ==> requests[0] == Request(startToday - LookbackDays, endToday, MinMagnitude)
    ensures forall k :: 0 <= k < |requests| ==>
      requests[k].endDay == endToday && requests[k].minMagnitude == MinMagnitude
    ensures forall k :: 0 < k < |requests| ==> requests[k].startDay == requests[k - 1].startDay + StepDays
  {
    ghost var first := FirstRequest(endToday, startToday);
    var startDay := startToday - LookbackDays;
    var sent: nat := 0;
    requests := [];
    while sent < fuel
      invariant sent == |requests| <= fuel
      invariant startDay == Shifted(first, sent).startDay
      invariant forall k :: 0 <= k < sent ==> requests[k] == Shifted(first, k)
      invariant forall k :: 0 <= k < sent ==> Oversized(api(requests[k]))
    {
      var req := Request(startDay, endToday, MinMagnitude);
      requests := requests + [req];
      var data := api(req);
      if !Oversized(data) {
        QueryEndsAt(api, first, fuel, sent);
        if data.NoFeaturesKey? {
          outcome := Malformed(sent + 1);
        } else {
          outcome := Within(data.features, sent + 1);
        }
        return;
      }
      ShiftedTwice(first, sent, 1);
      startDay := startDay + StepDays;
      sent := sent + 1;
    }
    QueryExhausted(api, first, fuel);
    outcome := GaveUp;
  }

  /** A feature whose coordinate list can be indexed at 0, 1 and 2. */
  predicate HasCoordinates(f: Feature) {
    |f.geometry.coordinates| >= 3
  }

  /**
   * `e` is the row made from `f`: latitude, longitude and depth are the
   * GeoJSON coordinates 1, 0 and 2; the properties are copied unchanged.
   */
  predicate Flattened(f: Feature, e: Earthquake)
    requires HasCoordinates(f)
  {
    var c := f.geometry.coordinates;
    && e.place == f.properties.place
    && e.mag == f.properties.mag
    && e.time == f.properties.time
    && e.tsunami == f.properties.tsunami
    && e.sig == f.properties.sig
    && e.latitude == c[1]
    && e.longitude == c[0]
    && e.depth == c[2]
  }

  /** `rows` is the table made from `features`: one row per feature, in order. */
  predicate FlatteningOf(features: seq<Feature>, rows: seq<Earthquake>) {
    && |rows| == |features|
    && forall i :: 0 <= i < |features| ==> HasCoordinates(features[i]) && Flattened(features[i], rows[i])
  }

  /**
   * The `for` loop of load_earthquake_data. It fails with the index of the
   * first feature whose coordinate list is too short, as the IndexError does.
   */
  method FlattenFeatures(features: seq<Feature>) returns (r: Result<seq<Earthquake>, nat>)
    ensures r.Success? <==> forall i :: 0 <= i < |features| ==> HasCoordinates(features[i])
    ensures r.Success? ==> FlatteningOf(features, r.value)
    ensures r.Failure? ==>
      && r.error < |features|
      && !HasCoordinates(features[r.error])
      && forall i :: 0 <= i < r.error ==> HasCoordinates(features[i])
  {
    var earthquakes: seq<Earthquake> := [];
    for i := 0 to |features|
      invariant FlatteningOf(features[..i], earthquakes)
    {
      var coordinates := features[i].geometry.coordinates;
      if |coordinates| < 3 {
        return Failure(i);
      }
      var properties := features[i].properties;
      var earthquake := Earthquake(
        properties.place, properties.mag, properties.time, properties.tsunami, properties.sig,
        coordinates[1], coordinates[0], coordinates[2]);
      earthquakes := earthquakes + [earthquake];
    }
    assert features[..|features|] == features;
    return Success(earthquakes);
  }

  /**
   * load_earthquake_data: the query loop, then the flattening of the last
   * answer, then the table built from the rows. Fails on a body without
   * `features`, on a short coordinate list, on a final answer with no
   * features at all (a table with no columns has no `time` column), and when
   * the loop has not ended within `fuel` requests.
   */
  method LoadEarthquakeData(api: Request -> Response, endToday: int, startToday: int, fuel: nat)
    returns (r: Result<seq<Earthquake>, LoadError>, ghost requests: seq<Request>)
    ensures var q := QueryFrom(api, FirstRequest(endToday, startToday), fuel);
      |requests| == if q.GaveUp? then fuel else q.attempts
    ensures forall k :: 0 <= k < |requests| ==> requests[k] == Shifted(FirstRequest(endToday, startToday), k)
    ensures var q := QueryFrom(api, FirstRequest(endToday, startToday), fuel);
      && (r == Failure(NoFinalResponse) <==> q.GaveUp?)
      && (r == Failure(MissingFeatures) <==> q.Malformed?)
      && (r == Failure(EmptyTable) <==> q.Within? && q.features == [])
      && (r.Success? <==>
            q.Within? && q.features != [] && forall i :: 0 <= i < |q.features| ==> HasCoordinates(q.features[i]))
      && (r.Success? ==> FlatteningOf(q.features, r.value) && 1 <= |r.value| <= Cap)
      && (r.Failure? && r.error.ShortCoordinates? ==>
            q.Within? && r.error.index < |q.features| && !HasCoordinates(q.features[r.error.index]))
  {
    var outcome;
    outcome, requests := FetchWithinCap(api, endToday, startToday, fuel);
    match outcome {
      case GaveUp =>
        r := Failure(NoFinalResponse);
      case Malformed(_) =>
        r := Failure(MissingFeatures);
      case Within(features, _) =>
        var rows := FlattenFeatures(features);
        match rows {
          case Success(earthquakes) =>
            r := if earthquakes == [] then Failure(EmptyTable) else Success(earthquakes);
          case Failure(i) =>
            r := Failure(ShortCoordinates(i));
        }
    }
  }
}
