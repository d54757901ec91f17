# Kenmei knowledge API: a verified model of its query and diagnostic logic

The Kenmei knowledge base is a small HTTP service. It gives telecom support
tooling network context about a place:

- the cell sites of a location;
- ongoing incidents;
- maintenance windows in progress;
- a catalog of Kenmei products;
- historical resolved cases.

Its endpoint `POST /diagnostics/analyze` combines these in one response, together
with a product recommendation and a short narrative in Spanish.

This project models the logic behind those endpoints. It takes the in-memory
tables, the request and the current time as parameters, and there is no HTTP layer.

- `Catalog` holds the records: cell site, incident, maintenance window, product,
  similar case, request and response. The cell-site dictionary is a sequence of
  (key, sites) buckets with unique keys, kept in the dictionary's insertion order.
- `Strings` models the Python string operations the service uses:
  - `str.lower()` on ASCII letters;
  - the substring test `needle in haystack`;
  - `sep.join`;
  - the slice `s[:n]`;
  - the decimal rendering of a count.
- `Seqs` models the list comprehension `[x for x in s if p(x)]` as `Filter`, with
  its facts: it keeps exactly the matching elements, in order, as often as they
  occur.
- `Sorting` models the stable descending sort of cases by success rate:
  - `SortByRate` is the reference definition, a stable insertion sort on values;
  - `SortByRateDesc` sorts an array in place by adjacent swaps;
  - the two are proved equal, because a sequence sorted by rate whose cases of
    each rate keep a given order is unique.
- `Queries` models the five GET endpoints: `/network/sites`, `/network/incidents`,
  `/network/maintenance`, `/solutions/products` and `/solutions/cases`.
- `Diagnostics` models `analyze_diagnostic`, step by step:
  - resolves the nearby sites;
  - selects incidents by area and maintenance windows in progress;
  - classifies the location type, first matching keyword rule wins;
  - ranks the cases of that type;
  - builds the product list;
  - builds the narrative lines and the `context_found` flag.

These are the choices of representation:

- Timestamps (`datetime`) are integers, and "now" is a parameter.
- `success_rate` and the other floating-point fields are reals.
- The text fields the service compares (severity, location type) stay strings.
- An optional string query parameter filters only when it is truthy, that is,
  neither `None` nor `""` (`Queries.Given`).
- The 404 of the site lookup is a `Failure` carrying the requested location and
  the list of every key.

## Model

| member | source | states |
|---|---|---|
| Queries.GetCellSites | kenmei_knowledge_api.py:399-406 | succeeds exactly when the lowered location is a key of the site dictionary, and then returns that key's bucket; otherwise fails with the location asked for and every key, in dictionary order |
| Queries.GetActiveIncidents | kenmei_knowledge_api.py:419-427 | result is a subsequence of the incidents in their original order; with a location given, each kept incident's lowered affected area contains the lowered location; with a severity given, each kept incident's stored severity equals the lowered argument; every incident meeting the given filters is kept, as many times as it occurs, and no other incident is; with neither given, every incident is returned |
| Queries.IncidentFilterCounts | kenmei_knowledge_api.py:421-425 | the two filters in sequence keep each incident that meets both given filters as often as it occurs, and drop every other incident |
| Queries.IncidentFilterSound | kenmei_knowledge_api.py:421-425 | every incident the two filters keep meets both given filters |
| Queries.IncidentFilterComplete | kenmei_knowledge_api.py:421-425 | every incident that meets both given filters survives the two filters |
| Queries.IncidentFiltersCommute | kenmei_knowledge_api.py:421-425 | applying the area filter then the severity filter keeps the same incidents, in the same order, as the reverse |
| Queries.GetScheduledMaintenance | kenmei_knowledge_api.py:439-448 | result is a subsequence of the windows; with active_only, every returned window has start <= now <= end and every such window is returned, as many times as it occurs; without it, the list is returned unchanged |
| Queries.MaintenanceAllActive | kenmei_knowledge_api.py:441-448 | when every window is in progress at now, active_only returns the full list: the filter never has to drop a window, so its result is a subsequence but not always a proper subset |
| Queries.GetKenmeiProducts | kenmei_knowledge_api.py:460-465 | result is a subsequence of the catalog; with a category given, exactly the products whose lowered category contains the lowered argument are kept, each as many times as it occurs; with no category, the whole catalog is returned |
| Queries.SelectCases | kenmei_knowledge_api.py:477-480 | the cases before sorting: with a type given, the cases whose stored type equals the lowered argument, each as often as it occurs, in catalog order; otherwise every case |
| Queries.GetSimilarCases | kenmei_knowledge_api.py:477-485 | result is SortByRate of the selected cases: sorted by success rate, highest first; a permutation of the cases whose type equals the lowered argument, or of all cases; cases of equal rate keep the catalog's order |
| Sorting.SortByRate | kenmei_knowledge_api.py:483 | the reference sort: its result is sorted by success rate, highest first, and is a permutation of its input |
| Sorting.InsertSorted | kenmei_knowledge_api.py:483 | inserting a case into a sorted list keeps it sorted, and the head becomes the higher-rated of the case and the old head |
| Sorting.InsertMultiset | kenmei_knowledge_api.py:483 | inserting a case adds exactly that case |
| Sorting.InsertGroups | kenmei_knowledge_api.py:483 | inserting a case into a sorted list places it last among the cases of its rate and leaves the other cases of each rate in order |
| Sorting.SortByRateStable | kenmei_knowledge_api.py:483 | the sort is stable: for every rate, the cases of that rate appear in input order |
| Sorting.SortedUnique | kenmei_knowledge_api.py:483 | two lists sorted by rate that agree, for every rate, on the order of the cases of that rate are equal; so a stable descending sort has only one possible result |
| Sorting.SwapKeepsRateGroups | kenmei_knowledge_api.py:483 | swapping two neighbours of different rates keeps the order of the cases within every rate |
| Sorting.SinkLast | kenmei_knowledge_api.py:483 | moves the next case left past the lower-rated ones, so one more prefix of the array is sorted, every rate's order is kept and the cases after it are untouched |
| Sorting.SortByRateDesc | kenmei_knowledge_api.py:483 | sorting the array in place leaves exactly SortByRate of its old contents |
| Sorting.SortCases | kenmei_knowledge_api.py:527-528 | the in-place sort of a freshly built list returns SortByRate of that list |
| Seqs.Filter | kenmei_knowledge_api.py:422 | a comprehension keeps a subsequence of its input; every kept element passes the test and every passing element is kept |
| Seqs.FilterCounts | kenmei_knowledge_api.py:480 | a comprehension keeps each passing element as many times as it occurs, and no other element |
| Seqs.FilterWhen | kenmei_knowledge_api.py:421-425 | a filter applied only when its argument is given: a subsequence whose elements pass and which keeps every passing element as often as it occurs; without the argument, the input unchanged |
| Seqs.FilterWhenTwice | kenmei_knowledge_api.py:421-425 | two optional filters in sequence keep a subsequence holding, as often as they occur, exactly the elements that pass both given tests |
| Seqs.FilterAppend | kenmei_knowledge_api.py:483 | filtering a concatenation concatenates the filtered halves |
| Diagnostics.KeyMatches | kenmei_knowledge_api.py:501 | a key matches exactly when it occurs somewhere in the location or the location occurs somewhere in it; the exact key always matches |
| Diagnostics.NearbySites | kenmei_knowledge_api.py:499-502 | no sites when no key matches; a matching first bucket's sites come first |
| Diagnostics.NearbySitesStep | kenmei_knowledge_api.py:500-502 | one more bucket of the scan adds its whole bucket when its key matches, and nothing otherwise |
| Diagnostics.ResolveSites | kenmei_knowledge_api.py:499-502 | the loop over the dictionary collects NearbySites: the concatenation, in key order, of the whole bucket of every key that contains the location or is contained in it |
| Diagnostics.NearbySitesMembers | kenmei_knowledge_api.py:499-502 | a site is among the nearby sites exactly when it is in the bucket of some matching key |
| Diagnostics.NearbySitesIsLookup | kenmei_knowledge_api.py:399-406 | when no key but the exact one matches, the diagnostic finds the same sites as GET /network/sites, and none where that lookup fails |
| Diagnostics.DiagnosticIncidentsMatchQuery | kenmei_knowledge_api.py:505-508 | the diagnostic's incident list is GET /network/incidents with the request location and no severity, also for an empty location |
| Diagnostics.DetermineLocationType | kenmei_knowledge_api.py:519-525 | the step-by-step assignment yields ClassifyLocation of the lowered location |
| Diagnostics.FirstMatch | kenmei_knowledge_api.py:519-525 | returns the result of the first rule that fires, and the fallback when none fires |
| Diagnostics.ClassifyIsFirstMatch | kenmei_knowledge_api.py:519-525 | the classification is the first matching rule of poligono/industrial, then autovia/carretera, then metro/tunel, and urban otherwise |
| Diagnostics.ClassifyLocation | kenmei_knowledge_api.py:519-525 | an industrial keyword makes the location industrial; a highway result implies a highway keyword and an underground result an underground keyword; urban exactly when none of the six keywords occurs |
| Diagnostics.PoligonoBeatsMetro | kenmei_knowledge_api.py:520-525 | every location key that contains both "poligono" and "metro" is industrial |
| Diagnostics.MatchedCasesOfType | kenmei_knowledge_api.py:527 | the diagnostic keeps the cases whose type is the classified type, as GET /solutions/cases does for that type |
| Diagnostics.RecommendProducts | kenmei_knowledge_api.py:531-540 | the list has one entry per firing rule plus one, ends with catalog entry 0, starts with entry 3 when the interference rule fires, and has entry 1 second to last when the coverage rule fires |
| Diagnostics.RecommendationOrder | kenmei_knowledge_api.py:531-540 | with entries 0, 1 and 3 distinct, the list has 1 to 3 entries without repeats and ends with entry 0; entry 3 comes first exactly when "interference" is in the lowered issue type or "signal" is in the lowered, space-joined symptoms; entry 1 appears exactly when "coverage" or "cobertura" is in the lowered issue type |
| Diagnostics.SignalInSomeSymptom | kenmei_knowledge_api.py:534 | "signal" occurs in the lowered, space-joined symptoms exactly when it occurs in one lowered symptom |
| Diagnostics.SignalAcrossSpace | kenmei_knowledge_api.py:534 | "signal" is in the lowered a + " " + b exactly when it is in lowered a or lowered b |
| Strings.Lower | kenmei_knowledge_api.py:399 | lowering keeps the length, leaves no upper-case ASCII letter and keeps every other character |
| Strings.Contains | kenmei_knowledge_api.py:422 | a prefix is contained, and a contained needle is never longer than the text |
| Strings.Join | kenmei_knowledge_api.py:559 | joining no parts gives the empty string and one part gives that part; otherwise the result starts with the first part and ends with the last |
| Strings.ContainsAcrossSpace | kenmei_knowledge_api.py:534 | a needle without a space occurs in a + " " + b exactly when it occurs in a or in b |
| Strings.ContainsIffOccurs | kenmei_knowledge_api.py:422 | the recursive substring test holds exactly when the needle occurs at some position |
| Diagnostics.AppendIncidentLines | kenmei_knowledge_api.py:550-551 | the loop appends one line per incident, in incident order |
| Diagnostics.OpeningParts | kenmei_knowledge_api.py:543-551 | the first two narrative rules: the sites line when there are sites, then the alert and one line per incident when there are incidents |
| Diagnostics.BuildContextParts | kenmei_knowledge_api.py:543-557 | the narrative lines are ContextParts: the four rules, each contributing only when its list is non-empty, in this order |
| Diagnostics.ContextPartsCount | kenmei_knowledge_api.py:543-557 | the narrative has one line per firing rule plus one line per active incident |
| Diagnostics.IncidentLineShape | kenmei_knowledge_api.py:551 | an incident line is "  - id: " followed by the first 150 characters of the description (all of a shorter one) and then "..." |
| Strings.Take | kenmei_knowledge_api.py:551 | s[:n] has the length min(|s|, n) and is a prefix of s |
| Strings.NatToString | kenmei_knowledge_api.py:546 | the rendering of a count is a non-empty string of decimal digits without a leading zero |
| Strings.NatToStringRoundTrip | kenmei_knowledge_api.py:546 | reading the rendered digits back gives the count |
| Diagnostics.Render | kenmei_knowledge_api.py:546-557 | every narrative line is non-empty, and an incident line ends in "..." |
| Diagnostics.HeadLinesStartApart | kenmei_knowledge_api.py:545-557 | every narrative line that can come first starts with a character other than the sentinel's first |
| Diagnostics.AdditionalContext | kenmei_knowledge_api.py:559 | the sentinel for no lines, the single line for one, and otherwise text that starts with the first line |
| Diagnostics.ContextSentinelIff | kenmei_knowledge_api.py:559 | the narrative is the sentinel "No hay contexto adicional disponible" exactly when there are no sites, incidents, maintenance windows or cases; otherwise it is the lines joined by newlines |
| Diagnostics.Narrate | kenmei_knowledge_api.py:543-559 | builds the narrative lines and joins them, giving the sentinel exactly when there are no sites, incidents, windows or cases |
| Diagnostics.AnalyzeDiagnostic | kenmei_knowledge_api.py:496-569 | nearby sites as ResolveSites finds them; incidents and maintenance as the GET queries return them; the first min(3, n) of the ranked cases of the classified type; the product list as RecommendProducts builds it; the narrative from the untruncated case list, equal to the sentinel exactly when all four lists are empty; context_found exactly when there are sites or incidents |

## Left out

- The FastAPI application is not part of this model: the app, the CORS
  middleware, the query-parameter declarations, `response_model` serialisation and
  the constant health endpoint `read_root`. Pydantic validation is also left out.
  The records are plain datatypes.
- The text of the 404 `detail` message is left out. The failure carries the same
  two values that the message formats: the location and the list of keys.
- The startup banner and the `uvicorn.run` bootstrap are console and process I/O.
- `datetime.now()` is an input: a clock reading passed as an integer `now`, and
  timestamps are integers. The mock tables, whose contents depend on the clock at
  import time, are parameters in a `KnowledgeBase`.
- Floating-point fields (`coverage_radius_km`, `coordinates`,
  `resolution_time_hours`, `success_rate`) are reals. `success_rate` is used only
  as an ordering key, and rounding is not modelled.
- Strings.Lower: lower-cases only the ASCII letters A to Z, not Unicode
  `str.lower()`. Every keyword the service tests for is ASCII.
- The narrative lines are values of `Diagnostics.ContextLine`, and
  `Diagnostics.Render` gives each its exact wording. Beyond non-emptiness, the
  first character and the incident line's layout, no property of the wording is
  stated.
- Diagnostics.RecommendProducts: requires a product catalog of at least four
  entries, because the service indexes entries 0, 1 and 3 of its fixed table. With
  a shorter table, the service would raise `IndexError`, and that is not modelled.
- The active-only maintenance list is not always a proper subset of the full
  list. The code returns a subsequence, which equals the full list when every
  window is in progress (`Queries.MaintenanceAllActive`); the model follows the code.
- `network_technology` in the request is carried but never read, as in the
  service.
- `list.sort` (Timsort) is modelled by an insertion sort that is proved to give
  the same unique stable result. The comparisons Timsort makes are not modelled.
- The copy made by `.copy()` is not modelled, since sequences are values. In the
  service, the returned lists share their record dictionaries with the tables;
  that aliasing is also not modelled.
