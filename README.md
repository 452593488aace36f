# Earthquake feed and plate attribution, verified in Dafny

This project models the data pipeline behind the earthquakes-and-volcanoes dashboard: the
part of `utils/utils.py` that fetches a year of earthquakes from the USGS event service and
labels each earthquake with a tectonic plate.

- `wrappers.dfy` (module `Wrappers`): the `Option` and `Result` types.
- `earthquake_feed.dfy` (module `EarthquakeFeed`): `load_earthquake_data`.
  - The re-query loop is an imperative method, `FetchWithinCap`. It asks for magnitude 3
    and above over the window from a year ago to today. While the answer holds more than
    2000 features, it moves the start of the window 30 days later and asks again. It fails
    on an answer that has no `features` key.
  - A second loop, `FlattenFeatures`, turns every GeoJSON feature into a flat earthquake
    row. The row's latitude, longitude and depth are GeoJSON coordinates 1, 0 and 2.
  - Both methods are proved against specification functions and predicates (`QueryFrom`,
    `Flattened`). Lemmas about those functions prove the stopping condition, the fixed
    30-day step, the fixed end date and magnitude, the error case, and the narrowing of
    the window.
  - The HTTP request and the JSON decoding are a parameter `api: Request -> Response`.
    Dates are day numbers. The source reads the clock twice (utils/utils.py:11-12): once
    for the end date and once for the start date. Both readings are parameters,
    `endToday` and `startToday`. They differ by a day when midnight passes between them,
    and the first window is then 364 days long.
- `tectonic_plates.dfy` (module `TectonicPlates`): `get_tectonic_plate_data` and the
  38-entry `minor_to_major_plate` table, as functions and lemmas.
  - Every earthquake becomes the point (longitude, latitude).
  - `gpd.sjoin(how="left", predicate="within")` is modelled as it behaves. An earthquake
    gets one row per plate region that contains its point, or one row with no plate when
    no region contains it.
  - `replace(minor_to_major_plate)` then relabels the plate column. Table keys become
    their major plate. Other names and missing names pass through unchanged.
  - Point-in-polygon containment is an oracle carried by each plate region.

Two behaviours of the code shape the model:
- **Loop bound.** `while True` (utils/utils.py:16) has no iteration bound and no check that
  the window is still non-empty: it keeps moving the start date forward, even past the end
  date. The model therefore makes no termination claim (see `fuel` below).
- **Overlapping regions.** A left spatial join (utils/utils.py:116) gives an earthquake one
  row per region that contains it, not one row with the first match.
  `JoinDuplicatesOverlaps` proves that overlapping regions make the table grow. Length and
  order are kept only when no point lies in two regions, which `JoinOneRowPerEvent` and
  `GetTectonicPlateDataRows` require.

## Model

| member | source | states |
|---|---|---|
| EarthquakeFeed.QueryFrom | utils/utils.py:16-28 | Partial correctness of the re-query loop. Every answer before the last one had more than 2000 features. The last answer either has at most 2000 features and they are the result, or has no `features` key. The k-th request is the first request with its start moved 30·k days. If the loop gives up, all `fuel` answers were oversized. |
| EarthquakeFeed.QueryEndsAt | utils/utils.py:21-28 | The converse. If the first n answers are oversized and answer n is not, the loop ends at request n+1: with that answer's features, or with the missing-`features` error. |
| EarthquakeFeed.QueryExhausted | utils/utils.py:24-28 | If every answer is oversized, the loop never stops by itself. The bounded model gives up. |
| EarthquakeFeed.QueryMoreFuel | utils/utils.py:16-28 | Any outcome reached within some bound is the outcome under every larger bound. So the bound only cuts the loop short and never changes its result. |
| EarthquakeFeed.NarrowedWindow | utils/utils.py:11-28 | If the year-long first window is oversized and the loop ends with features, those features come from a later request: its start is strictly later than the start-date reading minus 365 days, its end is still the end-date reading, and its magnitude floor is still 3. |
| EarthquakeFeed.FirstWindowSpan | utils/utils.py:11-12 | With the second clock reading on the same day as the first, or the next day, the first window spans 365 or 364 days respectively. |
| EarthquakeFeed.FetchWithinCap | utils/utils.py:11-28 | The loop as a method. Its outcome is the `QueryFrom` outcome. The first request runs from the second clock reading minus 365 days to the first clock reading, at minimum magnitude 3. Each next request starts exactly 30 days later. Every request has the first reading as its end date and magnitude 3. A ghost trace of the requests shows exactly one request per answer seen. |
| EarthquakeFeed.FlattenFeatures | utils/utils.py:30-48 | Success exactly when every coordinate list has at least three entries. On success there is one row per feature, in order. Latitude is coordinate 1, longitude coordinate 0, depth coordinate 2, and place, mag, time, tsunami and sig are copied unchanged. On failure it returns the index of the first short coordinate list, and there is no partial result. |
| EarthquakeFeed.LoadEarthquakeData | utils/utils.py:10-53 | The whole fetch. It fails exactly when the loop gives up, when it ends on an answer without `features`, when that answer has no features at all (the table then has no `time` column), or when a coordinate list is short. A missing `features` key fails the fetch even after earlier oversized answers. On success the table is the flattening of the final answer alone and holds between 1 and 2000 rows. A ghost trace holds one request per answer seen. |
| TectonicPlates.TableTargetsMajorPlates | utils/utils.py:65-104 | Every value of the minor-to-major table is one of the seven major plates. |
| TectonicPlates.MajorPlatesSettled | utils/utils.py:65-104 | No major-plate label is a table key, except one that maps to itself. |
| TectonicPlates.OnlyAntarcticaMapsToItself | utils/utils.py:65-104 | Among the table entries, Antarctica is exactly the one that maps a name to itself. |
| TectonicPlates.Relabel | utils/utils.py:125 | Relabelling keeps a cell missing exactly when it was missing. A table key becomes exactly the major plate the table gives it, which is one of the seven. Any other name is left as it was. |
| TectonicPlates.RelabelChanges | utils/utils.py:65-125 | Relabelling changes a cell exactly when the cell holds a table key other than Antarctica. |
| TectonicPlates.RelabelIdempotent | utils/utils.py:65-125 | Relabelling twice equals relabelling once. |
| TectonicPlates.MatchingPlates | utils/utils.py:116 | A name is among the matches exactly when a region with that name contains the point. There are no matches exactly when no region contains it. There are at most as many matches as regions. |
| TectonicPlates.MatchingPlatesInOrder | utils/utils.py:116 | The matches are one entry per containing region, in plate-file order: entry i is the name of the i-th region that contains the point. |
| TectonicPlates.OneRegionOneMatch | utils/utils.py:116 | A point that lies in at most one region has at most one match. |
| TectonicPlates.TwoRegionsTwoMatches | utils/utils.py:116 | A point that lies in two different regions has at least two matches. |
| TectonicPlates.JoinKeepsEveryEvent | utils/utils.py:112-116 | The left join never drops an earthquake. It has at least as many rows as earthquakes, and every input earthquake has a row. |
| TectonicPlates.JoinInventsNothing | utils/utils.py:112-116 | The left join invents no earthquake: every row carries one of the input earthquakes. |
| TectonicPlates.JoinOneRowPerEvent | utils/utils.py:112-116 | If no point lies in two regions, the join keeps length and order. Row i is earthquake i. Its plate is the containing region's name, or none when no region contains the point. |
| TectonicPlates.JoinDuplicatesOverlaps | utils/utils.py:116 | An earthquake whose point lies in two different regions makes the joined table longer than the input. |
| TectonicPlates.GetTectonicPlateDataRows | utils/utils.py:107-127 | If no point lies in two regions, there is one row per earthquake, in order. The plate is missing exactly when no region contains the point (longitude, latitude). A region named by a table key yields that key's major plate. Any other region's name passes through unchanged. |
| TectonicPlates.GetTectonicPlateDataSettled | utils/utils.py:124-125 | Relabelling the finished table again leaves it unchanged. |
| TectonicPlates.PointOfFeature | utils/utils.py:43-45 | The join's point (longitude, latitude) for a flattened row is the feature's own GeoJSON coordinates 0 and 1. The flattening's reordering is undone. |
| TectonicPlates.CocosScenario | utils/utils.py:76 | Three earthquakes, two inside a Cocos region and one outside every region. The result has three rows: the first two on North America, the third with no plate. |

## Left out

- **HTTP and JSON decoding.** `requests.get` and `response.json()` become the function
  `api`. A network failure, or a body that is not JSON, is not modelled. The two clock
  readings are parameters, and dates are day numbers rather than `YYYY-MM-DD` strings.
- **Termination of the re-query loop.** The source's `while True` has no bound. The model
  takes a `fuel` count of requests and reports `GaveUp` / `NoFinalResponse` when it runs
  out. Only partial correctness is claimed, and `QueryMoreFuel` shows the bound never
  changes an outcome it reaches.
- **Feature shape.** Features are typed records whose properties are always present. The
  `KeyError` of a feature missing `properties`, `geometry` or one of the five fields is
  not modelled. Only the `IndexError` of a short coordinate list is.
- **Table housekeeping.** The `time` to `datetime` formatting and the column drop after it
  (utils/utils.py:50-55) are not modelled, except that a table made from no features fails
  as `EmptyTable`, as the `KeyError` on its missing `time` column does. Neither are the
  rename and drop of join columns (utils/utils.py:119-122). The row type simply has the
  final columns.
- **Geometry.** `gpd.read_file`, shapely `Point`, the coordinate reference system and
  point-in-polygon tests on floating-point coordinates are replaced by a containment
  oracle per plate region. `load_plate_boundaries` (utils/utils.py:60-63) only reads a
  file and is not modelled.
- **Order of duplicate rows.** When one point lies in several regions, the model lists its
  rows in plate-file order. geopandas does not promise that order.
- **Caching.** `@st.cache_data` memoisation is left out: it is framework caching, not
  behaviour.
- **Page scripts.** The Streamlit pages, maps, charts, plate filter and top-10 table are
  not part of this model. They are presentation over the modelled tables.
- **Chat agent.** The chat agent (agent/agent.py, agent/prompts.py,
  pages/3_Seismic_Agent.py) is a remote language-model call and is not part of this model.
