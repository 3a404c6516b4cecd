# Cube analytics gateway: schema projection and query construction

This project models the two tool operations of the `hivenet-analytics` MCP
server (`mcp/main.py`). They sit between an agent calling tools and a
Cube.js-style semantic layer.

- `get_cube_meta` takes the backend's `/meta` reply and returns
  `{"cubes": [...]}`. Each cube keeps its `name`, the names of its measures,
  the names of all its dimensions, and the names of the dimensions whose
  `type` is `"time"`. Absent `cubes`, `measures` or `dimensions` keys count as
  empty lists. Module `CubeMeta`: raw records as datatypes, per-cube
  projections as functions, the loop over cubes as the method `GetCubeMeta`.
- `run_cube_query` turns flat caller parameters into the backend's query
  object and posts `{"query": <query>}`. It returns the reply's `data` value,
  or `[]` when the reply has none. Module `CubeQuery`: the query object is a
  JSON object (`map<string, Json>`) built by `BuildQuery`. Python's
  truthiness is written out: a list or string is truthy when present and
  non-empty, an integer when present and non-zero.
- The backend is not modelled. The `/meta` reply is an input value. The
  `/load` endpoint is a function from request body to reply object, so the
  contracts can say which body is sent.
- `BuildQuery` is paired with `ReadQuery`, which reads a query object back
  into parameters. `QueryRoundTrip` shows that reading the query back gives
  the caller's parameters with every falsy optional argument, and a time
  dimension or date range given without its partner, replaced by `None`.
  `SameQueryIff` shows two calls build the same query exactly when they agree on measures, on truthy
  `dimensions`, on the time pair when both halves are truthy, and on a
  non-zero `limit`.
- `TimeDimensionNames`, the filter, is paired with `TimeIndices`, an
  independent list of the positions that hold time dimensions.
  `TimeDimensionsExactly` shows the filter selects the dimension names at
  exactly those positions, in increasing order.

Points of the code's behaviour worth noting:
- A negative `limit` is truthy in Python, so it is sent. Only `0` and `None` omit the key.
- An empty `measures` list is passed through, not rejected.
- There are no sample values, titles, descriptions or `{error}` payloads.

## Model

| member | source | states |
|---|---|---|
| `CubeMeta.MeasureNames` | mcp/main.py:23 | one name per raw measure, the i-th name being the i-th measure's name |
| `CubeMeta.DimensionNames` | mcp/main.py:24 | one name per raw dimension of any type, in order |
| `CubeMeta.TimeDimensionNames` | mcp/main.py:25-29 | the time-dimension list is never longer than the dimension list |
| `CubeMeta.TimeIndicesExact` | mcp/main.py:25-29 | the reference positions are in range and strictly increasing, and a position is listed iff its dimension's `type` is the string "time" (an absent or other-valued type is skipped) |
| `CubeMeta.TimeDimensionNamesAppend` | mcp/main.py:25-29 | filtering the concatenation of two dimension lists gives the concatenation of the filtered lists |
| `CubeMeta.TimeDimensionNamesSelected` | mcp/main.py:24-29 | the time-dimension names are the dimension names at the reference positions, so they form an order-preserving subsequence of `dimensions` |
| `CubeMeta.TimeDimensionsExactly` | mcp/main.py:24-29 | `timeDimensions` is exactly the subsequence of dimension names picked at the positions whose type is "time", order preserved |
| `CubeMeta.AllTimeDimensions` | mcp/main.py:24-29 | when every dimension is a time dimension, `timeDimensions` equals `dimensions` |
| `CubeMeta.TimeDimensionNameOrigin` | mcp/main.py:25-29 | every name in `timeDimensions` belongs to some dimension of type "time" |
| `CubeMeta.NoTimeDimensions` | mcp/main.py:25-29 | with no dimension of type "time", `timeDimensions` is empty |
| `CubeMeta.ProjectCube` | mcp/main.py:21-30 | the summary keeps the cube's name, lists measure and dimension names one-to-one and in order, gives [] for absent keys, and has no more time dimensions than dimensions |
| `CubeMeta.ProjectCubeTimeDimensions` | mcp/main.py:23-29 | a summary's time dimensions are selected from its own dimension list, at exactly the positions whose raw type is "time" |
| `CubeMeta.GetCubeMeta` | mcp/main.py:17-32 | one summary per raw cube, in order and with the same name; a reply without `cubes` gives `{"cubes": []}` |
| `CubeQuery.BuildQuery` | mcp/main.py:52-66 | `measures` is the caller's list unchanged; `dimensions` is the caller's list, or [] when it is None or empty; `timeDimensions` is present iff both time dimension and date range are truthy, and is then the single entry {dimension, dateRange}; `limit` is present iff truthy and then equals the caller's value; no other key is set |
| `CubeQuery.QueryRoundTrip` | mcp/main.py:52-66 | reading the built query back yields the caller's parameters with every falsy optional argument, and a time dimension or date range given without its partner, replaced by `None` |
| `CubeQuery.BuildQueryNormalized` | mcp/main.py:52-66 | replacing by `None` every falsy optional argument, and a time dimension or date range given without its partner, does not change the query |
| `CubeQuery.SameQueryIff` | mcp/main.py:52-66 | two calls build the same query if and only if they agree on measures, on truthy `dimensions`, on the time pair when both halves are truthy, and on a non-zero `limit` |
| `CubeQuery.RequestBody` | mcp/main.py:68 | the body posted is exactly `{"query": <built query>}`: its single key is `query`, its value is the `BuildQuery` object, and that value reads back as the caller's parameters with every falsy optional argument, and a time dimension or date range given without its partner, replaced by `None` |
| `CubeQuery.RunCubeQuery` | mcp/main.py:68-69 | the backend reply to that body decides the result: its `data` value when present, [] otherwise |
| `CubeQuery.RunCubeQueryNormalized` | mcp/main.py:52-69 | calls whose parameters agree after every falsy optional argument, and a time dimension or date range given without its partner, is replaced by `None`, send the same request and return the same rows |
| `CubeQuery.ExampleFullTimeRange` | mcp/main.py:52-63 | measures ["m1"], no dimensions, time dimension "created_at" and a two-date range give exactly measures, empty dimensions and one timeDimensions entry, with no limit |
| `CubeQuery.ExamplePartialPairAndZeroLimit` | mcp/main.py:57-66 | a time dimension without a date range and a zero limit leave only `measures` and `dimensions` |

## Left out

- Backend access (`mcp/cube_client.py`, HTTP through `requests`): the `/meta` reply is an input value and `/load` is a function parameter. Network failures, non-JSON replies and a reply that is not a JSON object are not modelled.
- FastMCP server setup, tool registration, argument validation by the framework, and the `__main__` block with its transport and port: these are framework and process bootstrap.
- Logging (`logging.basicConfig`, the `logging.info` calls): side effects with no behavioural contract.
- The hard-coded backend URL and the module-level client: configuration, not logic.
- Python `KeyError` for a cube, measure or dimension without `name`: the raw datatypes require `name`. A non-list value under a `cubes`, `measures` or `dimensions` key is not representable either: Python raises `TypeError` for `null`, a number, or a non-empty string or object, and gives `[]` for an empty one.
- Cube, measure and dimension names are assumed to be strings. The code copies whatever JSON value `name` holds; since names are only copied, nothing else changes.
- JSON numbers are modelled as integers. The order of keys in the query dict is not modelled, because a map has none.
- `CubeQuery.RunCubeQuery`: the result is whatever JSON value `data` holds. Like the code, it does not check that `data` is a list of row objects.
