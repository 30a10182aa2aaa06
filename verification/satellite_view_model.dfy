/**
 * `SatelliteViewModel`: the list screen's state. The three mutable flows
 * (`_satelliteUIState`, `_allSatellites`, `_searchQuery`) are the fields of
 * one immutable value; the combined `satelliteUIState` the screen observes
 * is derived from them once the debounce has settled.
 */
module SatelliteViewModel {
  import opened Wrappers
  import opened Seqs
  import opened Text
  import opened Domain
  import opened SatelliteUi

  datatype SatelliteUIState =
    | Loading
    | Empty
    | LoadData(satellites: seq<SatelliteUIModel>)
    | Error(exception: Exception)

  datatype ViewModel = ViewModel(
    state: SatelliteUIState,
    allSatellites: seq<SatelliteUIModel>,
    searchQuery: string)

  /** A freshly constructed view model. */
  function Init(): (vm: ViewModel)
    ensures vm.state == Loading && vm.allSatellites == [] && vm.searchQuery == ""
  {
    ViewModel(Loading, [], "")
  }

  /**
   * The search applied to the loaded list: the empty query keeps everything;
   * otherwise exactly the rows whose name contains the query, ignoring case,
   * in their original order.
   */
  function FilterSatellites(all: seq<SatelliteUIModel>, query: string): (r: seq<SatelliteUIModel>)
    ensures |query| == 0 ==> r == all
    ensures IsSubsequence(r, all)
    ensures forall i :: 0 <= i < |r| ==> ContainsIgnoreCase(r[i].name, query)
    ensures forall s | s in all && ContainsIgnoreCase(s.name, query) :: multiset(r)[s] == multiset(all)[s]
    ensures multiset(r) <= multiset(all)
  {
    if |query| == 0 then
      SubsequenceReflexive(all);
      forall i | 0 <= i < |all|
        ensures ContainsIgnoreCase(all[i].name, query)
      {
        ContainsEmpty(all[i].name);
      }
      all
    else
      Filter(all, (s: SatelliteUIModel) => ContainsIgnoreCase(s.name, query))
  }

  /**
   * The combined `satelliteUIState`: a loaded state is replaced by the search
   * over `_allSatellites`; loading, empty and error states pass through.
   */
  function UiState(vm: ViewModel): (s: SatelliteUIState)
    ensures s.LoadData? <==> vm.state.LoadData?
    ensures !vm.state.LoadData? ==> s == vm.state
    ensures s.LoadData? ==> IsSubsequence(s.satellites, vm.allSatellites)
    ensures s.LoadData? ==> forall i :: 0 <= i < |s.satellites| ==>
      ContainsIgnoreCase(s.satellites[i].name, vm.searchQuery)
    ensures s.LoadData? ==> forall x | x in vm.allSatellites && ContainsIgnoreCase(x.name, vm.searchQuery) ::
      multiset(s.satellites)[x] == multiset(vm.allSatellites)[x]
    ensures s.LoadData? && vm.searchQuery == "" ==> s.satellites == vm.allSatellites
  {
    match vm.state
    case LoadData(_) =>
      var filtered := FilterSatellites(vm.allSatellites, vm.searchQuery);
      LoadData(filtered)
    case _ => vm.state
  }

  /** The rows carried by a loaded state play no part: the search always starts from `_allSatellites`. */
  lemma SearchIgnoresShownRows(vm: ViewModel, shown: seq<SatelliteUIModel>)
    requires vm.state.LoadData?
    ensures UiState(vm.(state := LoadData(shown))) == UiState(vm)
  {
  }

  /** A search that matches nothing shows an empty loaded list, not the `Empty` state. */
  lemma NoMatchIsEmptyLoadData(vm: ViewModel)
    requires vm.state.LoadData?
    requires forall i :: 0 <= i < |vm.allSatellites| ==> !ContainsIgnoreCase(vm.allSatellites[i].name, vm.searchQuery)
    ensures UiState(vm) == LoadData([])
  {
  }

  /** `updateSearchQuery(query)`: the query becomes exactly `query`; nothing else changes. */
  function UpdateSearchQuery(vm: ViewModel, query: string): (r: ViewModel)
    ensures r.searchQuery == query
    ensures r.state == vm.state && r.allSatellites == vm.allSatellites
  {
    vm.(searchQuery := query)
  }

  /** A burst of keystrokes, each one updating the query. */
  function TypeQueries(vm: ViewModel, queries: seq<string>): (r: ViewModel)
    ensures r.state == vm.state && r.allSatellites == vm.allSatellites
    ensures |queries| == 0 ==> r == vm
    ensures |queries| > 0 ==> r.searchQuery == queries[|queries| - 1]
    decreases |queries|
  {
    if |queries| == 0 then vm
    else TypeQueries(UpdateSearchQuery(vm, queries[0]), queries[1..])
  }

  /**
   * Debouncing keeps only the latest query: after any burst, what the screen
   * shows is what the last query alone would show.
   */
  lemma LatestQueryWins(vm: ViewModel, queries: seq<string>)
    requires |queries| > 0
    ensures UiState(TypeQueries(vm, queries)) == UiState(UpdateSearchQuery(vm, queries[|queries| - 1]))
  {
    assert TypeQueries(vm, queries) == UpdateSearchQuery(vm, queries[|queries| - 1]);
  }

  /** The values written to `_satelliteUIState` by one `loadSatellites()`, and the view model after it. */
  datatype Transition = Transition(written: seq<SatelliteUIState>, after: ViewModel)

  /**
   * `loadSatellites()` given the outcome of the use case: `Loading` is written
   * first; a thrown exception becomes `Error`; an empty list becomes `Empty`;
   * any other list is stored in `_allSatellites` and shown as loaded. The
   * query is untouched.
   */
  function LoadSatellites(vm: ViewModel, fetched: Attempt<seq<SatelliteDomainModel>>): (r: Transition)
    ensures |r.written| == 2 && r.written[0] == Loading && r.written[1] == r.after.state
    ensures r.after.searchQuery == vm.searchQuery
    ensures fetched.Threw? ==> r.after.state == Error(fetched.error) && r.after.allSatellites == vm.allSatellites
    ensures fetched.Returned? ==> |r.after.allSatellites| == |fetched.value|
    ensures fetched.Returned? ==> forall i :: 0 <= i < |fetched.value| ==>
      r.after.allSatellites[i] == ToUIModel(fetched.value[i])
    ensures fetched.Returned? ==> (r.after.state == Empty <==> fetched.value == [])
    ensures fetched.Returned? && fetched.value != [] ==> r.after.state == LoadData(r.after.allSatellites)
  {
    var loading := vm.(state := Loading);
    match fetched
    case Threw(e) => Transition([Loading, Error(e)], loading.(state := Error(e)))
    case Returned(satellites) =>
      var uiModels := ToUIModels(satellites);
      var state := if |uiModels| == 0 then Empty else LoadData(uiModels);
      Transition([Loading, state], loading.(allSatellites := uiModels, state := state))
  }

  /** With no search, a successful load shows every satellite in the order the use case returned them. */
  lemma LoadedListShownInFull(vm: ViewModel, satellites: seq<SatelliteDomainModel>)
    requires satellites != [] && vm.searchQuery == ""
    ensures var shown := UiState(LoadSatellites(vm, Returned(satellites)).after);
            shown.LoadData? && |shown.satellites| == |satellites|
            && forall i :: 0 <= i < |satellites| ==>
                 shown.satellites[i].id == satellites[i].id && shown.satellites[i].name == satellites[i].name
  {
  }
}
