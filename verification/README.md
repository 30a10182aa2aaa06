# Satellite catalogue: data layer and screen state, in Dafny

A model of the data and presentation logic of a small Android app that lists
satellites, shows one satellite's details, and replays its position track.

- **Repository** (`SatelliteRepositoryImpl`) reads three bundled assets.
  Details go through a Room table used as a cache-aside store: a cached row is
  returned without opening the asset. On a miss, the first matching record is
  returned and written to the table.
- **Position use case** (`GetSatellitePositionsUseCase`) fetches a satellite's
  track once. It then emits each position followed by a 3000 ms pause. The
  flow is modelled as a trace of `Fetch`, `Emit(p)` and `Delay(ms)` events.
- **List view model** (`SatelliteViewModel`) loads the list and derives the
  shown state. The search is a case-insensitive substring match that keeps
  order, and only the latest query counts.
- **Detail view model** (`SatelliteDetailViewModel`) moves from `Loading` to
  `Success` or `Error`. It then collects positions into `currentPosition`.
- **Mappers and routes**: record/row/domain/UI conversions, the detail
  route and its parse back to an id.

Modelling choices:

- Everything is a pure function over immutable values.
- The Room table is a `map<Int32, SatelliteDetailEntity>` keyed by primary key.
- Each asset is an `Option<…>`: `None` is the `IOException` path.
- A suspending call that may throw is an `Attempt<T>` input:
  `Returned(v)` or `Threw(Exception(message))`.
- Kotlin's `Int` is the subset type `Int32`.
- `Int.toString()` is `Numerals.Show` and `String.toIntOrNull()` is
  `Numerals.ParseInt`.
- A position's two `Double` coordinates are an opaque type parameter `P`.

Files, one module each: `wrappers.dfy`, `numerals.dfy`, `seqs.dfy`,
`text.dfy` (shared helpers); `domain.dfy`, `data_model.dfy`,
`detail_dao.dfy`, `detail_mapper.dfy`, `repository.dfy` (data layer);
`positions_use_case.dfy`; `satellite_ui.dfy`, `satellite_view_model.dfy`
(list screen); `detail_ui.dfy`, `detail_view_model.dfy` (detail screen);
`routes.dfy`.

Three places where the code does something other than what its comments
or tests suggest were intended. In each, the model follows the code:

- **Trailing pause.** The comments in
  `app/src/test/java/com/omerfarukcelik/challenge/domain/usecase/GetSatellitePositionsUseCaseTest.kt:37-44`
  expect the first position at once and a 3-second pause before each later
  one. The emitter (`GetSatellitePositionsUseCase.kt:17-20`) pauses after
  every emission, the last one included. So the trace ends with a `Delay`
  and has as many pauses as emissions.
- **Cache write failures.** The comment "load from assets and cache it"
  (`SatelliteRepositoryImpl.kt:54`) reads as if caching were a side effect of
  loading. The insert at line 67 sits inside the same `try` (lines 55-73) as
  the asset read. An `IOException` there would turn the answer into `null`,
  and any other failure escapes the call. The model does not treat the write
  as best-effort; see "Left out".
- **Failures that propagate.** Each repository read catches only
  `IOException` (lines 42, 71, 86). Malformed JSON inside the `try`
  propagates to the caller. So does a failing cache read at line 49, which is
  outside the `try`.

## Model

| member | source | states |
|---|---|---|
| SatelliteRepository.GetSatellites | app/src/main/java/com/omerfarukcelik/challenge/data/repository/SatelliteRepositoryImpl.kt:33-45 | an unreadable list asset gives the empty list; otherwise one domain model per record, same length, record i mapped at position i |
| SatelliteRepository.Resolve | app/src/main/java/com/omerfarukcelik/challenge/data/repository/SatelliteRepositoryImpl.kt:62-65 | the dataset-only answer for an id: absent exactly when no record has that id, otherwise the first record with that id mapped to the domain, whose id is the requested one |
| SatelliteRepository.GetSatelliteDetail | app/src/main/java/com/omerfarukcelik/challenge/data/repository/SatelliteRepositoryImpl.kt:47-74 | hit: the cached row mapped to the domain, table unchanged, asset not opened; miss: asset opened; unreadable asset or no matching record gives null and an unchanged table; first matching record found: returned and its entity inserted under the id; the table stays keyed and a non-null answer carries the requested id |
| SatelliteRepository.SecondRequestHitsCache | app/src/main/java/com/omerfarukcelik/challenge/data/repository/SatelliteRepositoryImpl.kt:49-67 | after a lookup that found something, a second lookup for the same id, whatever the asset now holds, is a hit with an equal answer, no asset read and an unchanged table |
| SatelliteRepository.CacheIsTransparent | app/src/main/java/com/omerfarukcelik/challenge/data/repository/SatelliteRepositoryImpl.kt:47-74 | from a table coherent with the asset, every lookup answers exactly what the asset alone would, and the table stays coherent |
| SatelliteRepository.GetSatellitePositions | app/src/main/java/com/omerfarukcelik/challenge/data/repository/SatelliteRepositoryImpl.kt:76-89 | the track of the first group whose text id equals the decimal id, in asset order; empty when no group matches or the asset is unreadable |
| SatelliteRepository.PositionsBelongToSatellite | app/src/main/java/com/omerfarukcelik/challenge/data/repository/SatelliteRepositoryImpl.kt:84-85 | a non-empty track comes from a group whose id parses back to the requested satellite id |
| SatelliteDetailDao.GetSatelliteDetail | app/src/main/java/com/omerfarukcelik/challenge/data/local/dao/SatelliteDetailDao.kt:10-11 | null exactly when no row has the key; otherwise that row, whose id is the requested one in a keyed table |
| SatelliteDetailDao.InsertSatelliteDetail | app/src/main/java/com/omerfarukcelik/challenge/data/local/dao/SatelliteDetailDao.kt:13-14 | a lookup of the inserted id then returns the inserted row; every other id looks up as before; keys grow by the inserted id only; one row per key is kept |
| SatelliteDetailDao.LastWriteWins | app/src/main/java/com/omerfarukcelik/challenge/data/local/dao/SatelliteDetailDao.kt:13-14 | two inserts under the same key leave the same table as the second alone |
| SatelliteDetailMapper.ToDomain | app/src/main/java/com/omerfarukcelik/challenge/data/local/mapper/SatelliteDetailMapper.kt:6-14 | the domain model carries the row's id, name, launch cost, height and mass unchanged |
| SatelliteDetailMapper.ToEntity | app/src/main/java/com/omerfarukcelik/challenge/data/local/mapper/SatelliteDetailMapper.kt:16-24 | the row carries the domain id (its primary key), name, launch cost, height and mass unchanged, and maps back to the same domain model |
| SatelliteDetailMapper.EntityRoundTrip | app/src/main/java/com/omerfarukcelik/challenge/data/local/mapper/SatelliteDetailMapper.kt:6-24 | a row mapped to the domain and back is the same row |
| DataModel.SatelliteToDomain | app/src/main/java/com/omerfarukcelik/challenge/data/model/Satellite.kt:11-17 | id, active flag and name are preserved |
| DataModel.SatelliteToDomainInjective | app/src/main/java/com/omerfarukcelik/challenge/data/model/Satellite.kt:11-17 | no information is lost: equal domain models come from equal records |
| DataModel.SatellitesToDomain | app/src/main/java/com/omerfarukcelik/challenge/data/model/Satellite.kt:19-21 | same length; element i keeps the id, active flag and name of record i; the empty list maps to the empty list |
| DataModel.DetailToDomain | app/src/main/java/com/omerfarukcelik/challenge/data/model/SatelliteDetail.kt:14-22 | id, name, launch cost, height and mass are preserved |
| DataModel.DetailToDomainInjective | app/src/main/java/com/omerfarukcelik/challenge/data/model/SatelliteDetail.kt:14-22 | distinct detail records map to distinct domain models |
| GetSatellitePositionsUseCase.Pace | app/src/main/java/com/omerfarukcelik/challenge/domain/usecase/GetSatellitePositionsUseCase.kt:17-20 | two events per position, and no repository call among them |
| GetSatellitePositionsUseCase.PaceShape | app/src/main/java/com/omerfarukcelik/challenge/domain/usecase/GetSatellitePositionsUseCase.kt:17-20 | position i is event 2i and is followed by a 3000 ms pause |
| GetSatellitePositionsUseCase.Invoke | app/src/main/java/com/omerfarukcelik/challenge/domain/usecase/GetSatellitePositionsUseCase.kt:13-21 | the repository is called exactly once, before anything else; a thrown exception ends the flow with that exception and no emission; otherwise it completes after 1 + 2n events, position i at event 1 + 2i followed by a pause |
| GetSatellitePositionsUseCase.EmittedAppend | app/src/main/java/com/omerfarukcelik/challenge/domain/usecase/GetSatellitePositionsUseCase.kt:17-20 | emissions and pauses of two consecutive stretches of a trace add up |
| GetSatellitePositionsUseCase.PaceAppend | app/src/main/java/com/omerfarukcelik/challenge/domain/usecase/GetSatellitePositionsUseCase.kt:17-20 | pacing a history in two parts gives the two paced parts one after the other |
| GetSatellitePositionsUseCase.PaceEmits | app/src/main/java/com/omerfarukcelik/challenge/domain/usecase/GetSatellitePositionsUseCase.kt:17-20 | a paced history emits exactly that history and pauses once per position |
| GetSatellitePositionsUseCase.RunAfterPairs | app/src/main/java/com/omerfarukcelik/challenge/domain/usecase/GetSatellitePositionsUseCase.kt:15-20 | after the fetch and i emit/pause pairs, the first i positions have been emitted and i pauses taken |
| GetSatellitePositionsUseCase.EmitsHistoryInOrder | app/src/main/java/com/omerfarukcelik/challenge/domain/usecase/GetSatellitePositionsUseCase.kt:17-18 | the emitted positions are the fetched list, element for element, in order |
| GetSatellitePositionsUseCase.DelaysMatchEmissions | app/src/main/java/com/omerfarukcelik/challenge/domain/usecase/GetSatellitePositionsUseCase.kt:17-20 | the number of pauses equals the number of positions emitted |
| GetSatellitePositionsUseCase.EmittedAfterDelays | app/src/main/java/com/omerfarukcelik/challenge/domain/usecase/GetSatellitePositionsUseCase.kt:17-20 | position i is emitted after exactly i pauses, so the first comes right after the fetch |
| GetSatellitePositionsUseCase.CancelledRunEmitsPrefix | app/src/main/java/com/omerfarukcelik/challenge/domain/usecase/GetSatellitePositionsUseCase.kt:17-20 | a run cut after k events has emitted exactly the first k/2 positions: cancelling after position i never lets position i+1 out |
| GetSatellitePositionsUseCase.EmptyHistoryCompletesAtOnce | app/src/main/java/com/omerfarukcelik/challenge/domain/usecase/GetSatellitePositionsUseCase.kt:15-17 | an empty history completes after the fetch with no emission and no pause |
| SatelliteViewModel.Init | app/src/main/java/com/omerfarukcelik/challenge/ui/satellite_list/SatelliteViewModel.kt:26-30 | a new view model is loading, with no satellites and an empty query |
| SatelliteViewModel.FilterSatellites | app/src/main/java/com/omerfarukcelik/challenge/ui/satellite_list/SatelliteViewModel.kt:36-42 | empty query: the whole list; otherwise a subsequence of the list, in order, in which every row's name contains the query ignoring case, and every matching row occurs as often as in the list |
| SatelliteViewModel.UiState | app/src/main/java/com/omerfarukcelik/challenge/ui/satellite_list/SatelliteViewModel.kt:33-47 | loading, empty and error pass through unchanged; a loaded state stays loaded with the search result over the stored list: ordered, only matches, every matching row kept as often as it occurs; the empty query shows the whole stored list |
| SatelliteViewModel.SearchIgnoresShownRows | app/src/main/java/com/omerfarukcelik/challenge/ui/satellite_list/SatelliteViewModel.kt:35-39 | the rows inside a loaded state play no part; the search always starts from the stored list |
| SatelliteViewModel.NoMatchIsEmptyLoadData | app/src/main/java/com/omerfarukcelik/challenge/ui/satellite_list/SatelliteViewModel.kt:39-43 | a query that matches nothing shows an empty loaded list, not the Empty state |
| SatelliteViewModel.UpdateSearchQuery | app/src/main/java/com/omerfarukcelik/challenge/ui/satellite_list/SatelliteViewModel.kt:73-75 | the query becomes exactly the given text; the state and the stored list are unchanged |
| SatelliteViewModel.TypeQueries | app/src/main/java/com/omerfarukcelik/challenge/ui/satellite_list/SatelliteViewModel.kt:73-75 | after a burst of query updates the query is the last one typed and nothing else has changed |
| SatelliteViewModel.LatestQueryWins | app/src/main/java/com/omerfarukcelik/challenge/ui/satellite_list/SatelliteViewModel.kt:33 | after any burst of queries the screen shows what the last query alone would show |
| SatelliteViewModel.LoadSatellites | app/src/main/java/com/omerfarukcelik/challenge/ui/satellite_list/SatelliteViewModel.kt:55-71 | Loading is written first; a caught `Exception` becomes Error of it with the stored list kept; a returned list is stored as UI models, one per item, in order; Empty exactly when it is empty, otherwise loaded with the stored list; the query is untouched |
| SatelliteViewModel.LoadedListShownInFull | app/src/main/java/com/omerfarukcelik/challenge/ui/satellite_list/SatelliteViewModel.kt:33-66 | with no search, a successful non-empty load shows every satellite in use-case order with its id and name |
| SatelliteUi.ToUIModel | app/src/main/java/com/omerfarukcelik/challenge/ui/satellite_list/SatelliteUIModel.kt:13-21 | id, active flag and name are copied; the label is "Active" or "Passive" and is "Active" exactly for active satellites; the colour is green or red and is green exactly for active satellites |
| SatelliteUi.StatusDependsOnlyOnActive | app/src/main/java/com/omerfarukcelik/challenge/ui/satellite_list/SatelliteUIModel.kt:18-19 | two satellites with the same active flag get the same label and colour |
| SatelliteUi.ToUIModels | app/src/main/java/com/omerfarukcelik/challenge/ui/satellite_list/SatelliteUIModel.kt:23-25 | same length; row i is the UI model of item i, keeping its id, active flag and name |
| SatelliteDetailUi.ToUIModel | app/src/main/java/com/omerfarukcelik/challenge/ui/satellite_detail/SatelliteDetailUIModel.kt:12-19 | id and name are copied; the height/mass text is the decimal height, a slash and the decimal mass, so it has exactly one slash and splits back into the two decimal texts; the cost text is the decimal launch cost and parses back to it |
| SatelliteDetailUi.HeightMassReadsBack | app/src/main/java/com/omerfarukcelik/challenge/ui/satellite_detail/SatelliteDetailUIModel.kt:16 | both halves of the height/mass text parse back to the height and the mass |
| SatelliteDetailUi.CardOfTestSatellite | app/src/test/java/com/omerfarukcelik/challenge/ui/satellite_detail/SatelliteDetailViewModelTest.kt:59-80 | the test detail renders as "50/1000" and "1000000" |
| SatelliteDetailViewModel.Init | app/src/main/java/com/omerfarukcelik/challenge/ui/satellite_detail/SatelliteDetailViewModel.kt:22-26 | a new detail view model is loading with no current position |
| SatelliteDetailViewModel.Collect | app/src/main/java/com/omerfarukcelik/challenge/ui/satellite_detail/SatelliteDetailViewModel.kt:49-59 | after collecting a flow the position is its last emission, or unchanged if it emitted nothing, however the flow ended |
| SatelliteDetailViewModel.ErrorMessage | app/src/main/java/com/omerfarukcelik/challenge/ui/satellite_detail/SatelliteDetailViewModel.kt:43-44 | the exception's message, or "Unknown error" when it has none |
| SatelliteDetailViewModel.LoadSatelliteDetail | app/src/main/java/com/omerfarukcelik/challenge/ui/satellite_detail/SatelliteDetailViewModel.kt:28-47 | Loading is written first; position updates start exactly when a detail was returned; then the state is Success of the detail's card and the position comes from collecting the flow; null gives Error("Satellite not found"), a caught `Exception` gives Error of its message; without a detail the position is untouched |
| SatelliteDetailViewModel.ShowsLastPositionOfHistory | app/src/main/java/com/omerfarukcelik/challenge/ui/satellite_detail/SatelliteDetailViewModel.kt:28-59 | behind the real use case, a found satellite shows Success and ends on the last position of its history, or no position for an empty history |
| SatelliteDetailViewModel.StreamFailureKeepsLastPosition | app/src/main/java/com/omerfarukcelik/challenge/ui/satellite_detail/SatelliteDetailViewModel.kt:49-59 | a position flow that fails after some emissions leaves Success on screen and the last emitted position current |
| SatelliteDetailViewModel.EmittedOfEmits | app/src/main/java/com/omerfarukcelik/challenge/ui/satellite_detail/SatelliteDetailViewModel.kt:55-57 | a flow made of emissions only delivers exactly those positions |
| SatelliteDetailViewModel.NotFoundLeavesPositionUnset | app/src/main/java/com/omerfarukcelik/challenge/ui/satellite_detail/SatelliteDetailViewModel.kt:40-41 | a missing satellite never starts the position flow, so a new view model keeps no position |
| SatelliteRoutes.CreateSatelliteDetailRoute | app/src/main/java/com/omerfarukcelik/challenge/ui/navigation/SatelliteRoutes.kt:7-9 | the route is "satellite_detail/" followed by the decimal text of the id |
| SatelliteRoutes.FillTemplate | app/src/main/java/com/omerfarukcelik/challenge/ui/navigation/SatelliteRoutes.kt:5 | a pattern is filled exactly when it ends with the placeholder of the argument, and the filled text is the pattern with that trailing placeholder replaced by the value |
| SatelliteRoutes.RouteFillsTemplate | app/src/main/java/com/omerfarukcelik/challenge/ui/navigation/SatelliteRoutes.kt:5-9 | the built route is the detail pattern with {satelliteId} replaced by the decimal id |
| SatelliteRoutes.RouteArgument | app/src/main/java/com/omerfarukcelik/challenge/ui/MainActivity.kt:59-60 | a route yields an argument exactly when it starts with the detail prefix, and the route is the prefix followed by that argument |
| SatelliteRoutes.ResolveSatelliteId | app/src/main/java/com/omerfarukcelik/challenge/ui/MainActivity.kt:60-61 | a missing or non-numeric argument resolves to 0; a numeric one resolves to its value |
| SatelliteRoutes.RouteRoundTrip | app/src/main/java/com/omerfarukcelik/challenge/ui/navigation/SatelliteRoutes.kt:7-9 | the detail screen reached through a built route receives the id the route was built from |
| SatelliteRoutes.RoutesDistinct | app/src/main/java/com/omerfarukcelik/challenge/ui/navigation/SatelliteRoutes.kt:7-9 | distinct ids give distinct routes |
| SatelliteRoutes.DetailRouteIsNotList | app/src/main/java/com/omerfarukcelik/challenge/ui/navigation/SatelliteRoutes.kt:4-9 | a detail route is never the list route |
| Numerals.Show | app/src/main/java/com/omerfarukcelik/challenge/ui/satellite_detail/SatelliteDetailUIModel.kt:17 | non-empty; a leading minus exactly for negative values; otherwise only digits, with no leading zero; the digits denote the magnitude of the value |
| Numerals.ParseInt | app/src/main/java/com/omerfarukcelik/challenge/ui/MainActivity.kt:61 | null unless the text is an optional + or - sign followed by at least one digit; for such a text, the signed value the digits denote when it fits in Int, and null when it does not |
| Numerals.ParseShow | app/src/main/java/com/omerfarukcelik/challenge/ui/MainActivity.kt:60-61 | parsing the decimal text of any Int gives that Int back |
| Numerals.ShowInjective | app/src/main/java/com/omerfarukcelik/challenge/ui/navigation/SatelliteRoutes.kt:8 | distinct integers have distinct decimal texts |
| Seqs.FirstIndex | app/src/main/java/com/omerfarukcelik/challenge/data/repository/SatelliteRepositoryImpl.kt:62 | the first index whose element satisfies the predicate, or none exactly when no element does |
| Seqs.Filter | app/src/main/java/com/omerfarukcelik/challenge/ui/satellite_list/SatelliteViewModel.kt:39-41 | a subsequence of the input, in order, of elements satisfying the predicate, each satisfying element kept as often as it occurs |
| Text.ContainsIgnoreCase | app/src/main/java/com/omerfarukcelik/challenge/ui/satellite_list/SatelliteViewModel.kt:40 | true exactly when the query occurs at some offset of the name, compared case-insensitively |
| Text.Split | app/src/main/java/com/omerfarukcelik/challenge/ui/satellite_detail/SatelliteDetailUIModel.kt:16 | one more part than there are separators, no part containing the separator |
| Text.SplitJoined | app/src/main/java/com/omerfarukcelik/challenge/ui/satellite_detail/SatelliteDetailUIModel.kt:16 | two separator-free pieces joined by the separator split back into those two pieces |

## Left out

- Asset reading and JSON parsing (`context.assets.open`, Gson): each asset is
  a parameter, with `None` for an `IOException`.
- Exceptions other than `IOException` in the repository are not modelled.
  These are malformed JSON and a failing Room read at line 49, outside the
  `try`; both propagate in the source. The view models still receive thrown
  exceptions as `Threw` inputs.
- A `Throwable` that is not an `Exception` (a `kotlin.Error` such as
  `StackOverflowError`) is not modelled. It escapes both view models'
  `catch (e: Exception)` (`SatelliteViewModel.kt:67`,
  `SatelliteDetailViewModel.kt:43`) and leaves the state at `Loading`. A
  `Threw` input always stands for an `Exception`.
- SatelliteRepository.GetSatelliteDetail: the insert always succeeds. A Room
  failure during the insert is not modelled. An `IOException` there would
  make the call return null; any other failure would propagate.
- Coroutines, dispatchers and timing are not modelled: `withContext`,
  `viewModelScope.launch`, `stateIn(WhileSubscribed(5000))`,
  `debounce(300)` and `distinctUntilChanged`. Pacing is a `Delay` event.
  Debounce is "only the latest query counts" (`LatestQueryWins`).
  Cancellation is a cut-off trace (`CancelledRunEmitsPrefix`).
- Concurrent lookups of the same id are not modelled: the model is sequential.
- Text.ContainsIgnoreCase: folds ASCII letters only. Kotlin's
  `contains(ignoreCase = true)` also folds other Unicode letters.
- Numerals.ParseInt: accepts ASCII digits only. Kotlin's `toIntOrNull` also
  accepts other Unicode decimal digits.
- Position coordinates are `Double` in the source. They are an opaque type,
  and `Position.toDomain` is the identity on it.
- SatelliteRoutes.RouteArgument: a simplified stand-in for the navigation
  library's route matching. It takes the text after the detail prefix; the
  library's own matching is not part of this model.
- `GetSatellitesUseCase` and `GetSatelliteDetailUseCase` are not modelled
  separately: each forwards one repository call unchanged. The view models
  take that call's outcome as an input.
- The sealed state classes are not modelled separately: they are mirrored as
  datatypes. `StatusIO` is unused. The second `SatelliteDetailUIState`
  declaration in `SatelliteDetailViewModel.kt` matches the first.
- Compose screens, the rest of `MainActivity`, Hilt wiring and the Room
  database configuration are not part of this model.
- `ISatelliteRepository` declares only `getSatellites`. The model follows
  the implementation's three operations and its two-argument constructor.
