/**
 * `SatelliteDetailViewModel`: the detail screen moves from `Loading` to
 * `Success` or `Error`, and a found satellite's position stream is collected
 * into `currentPosition`. The two launched coroutines are run to completion
 * one after the other; the position flow is given as the trace it produces.
 */
module SatelliteDetailViewModel {
  import opened Wrappers
  import opened Domain
  import opened SatelliteDetailUi
  import Stream = GetSatellitePositionsUseCase

  datatype SatelliteDetailUIState =
    | Loading
    | Success(data: SatelliteDetailUIModel)
    | Error(message: string)

  datatype DetailViewModel<P> = DetailViewModel(uiState: SatelliteDetailUIState, currentPosition: Option<P>)

  const NotFoundMessage: string := "Satellite not found"
  const UnknownErrorMessage: string := "Unknown error"

  /** A freshly constructed view model: loading, with no position yet. */
  function Init<P>(): (vm: DetailViewModel<P>)
    ensures vm.uiState == Loading && vm.currentPosition == None
  {
    DetailViewModel(Loading, None)
  }

  /**
   * `collect { _currentPosition.value = it }`: each emission overwrites the
   * current position, so afterwards it holds the last one emitted, or is
   * unchanged when nothing was emitted. How the flow ended plays no part,
   * because the `catch` before `collect` swallows a failure.
   */
  function Collect<P>(current: Option<P>, events: seq<Stream.Event<P>>): (r: Option<P>)
    ensures Stream.Emitted(events) == [] ==> r == current
    ensures Stream.Emitted(events) != [] ==> r == Some(Stream.Emitted(events)[|Stream.Emitted(events)| - 1])
    decreases |events|
  {
    if |events| == 0 then current
    else
      var next := if events[0].Emit? then Some(events[0].position) else current;
      Collect(next, events[1..])
  }

  /** The values written to `_uiState`, the view model afterwards, and whether position updates were started. */
  datatype DetailStep<P> = DetailStep(
    written: seq<SatelliteDetailUIState>,
    after: DetailViewModel<P>,
    startedPositions: bool)

  /** `e.message ?: "Unknown error"`. */
  function ErrorMessage(e: Exception): (m: string)
    ensures e.message.Some? ==> m == e.message.value
    ensures e.message.None? ==> m == UnknownErrorMessage
  {
    match e.message
    case Some(text) => text
    case None => UnknownErrorMessage
  }

  /**
   * `loadSatelliteDetail(satelliteId)` given the outcome of the detail use
   * case and the trace of the position flow: `Loading` is written first; a
   * found detail becomes `Success` of its card and starts collecting
   * positions; a missing one becomes `Error("Satellite not found")`; a thrown
   * error becomes `Error` of its message. Without a found detail the current
   * position is left alone.
   */
  function LoadSatelliteDetail<P>(
    vm: DetailViewModel<P>,
    detail: Attempt<Option<SatelliteDetailDomainModel>>,
    positions: Stream.Run<P>): (r: DetailStep<P>)
    ensures |r.written| == 2 && r.written[0] == Loading && r.written[1] == r.after.uiState
    ensures r.startedPositions <==> detail.Returned? && detail.value.Some?
    ensures r.startedPositions ==> r.after.uiState == Success(ToUIModel(detail.value.value))
    ensures r.startedPositions ==> r.after.currentPosition == Collect(vm.currentPosition, positions.events)
    ensures detail == Returned(None) ==> r.after.uiState == Error(NotFoundMessage)
    ensures detail.Threw? ==> r.after.uiState == Error(ErrorMessage(detail.error))
    ensures !r.startedPositions ==> r.after.currentPosition == vm.currentPosition
  {
    match detail
    case Threw(e) => DetailStep([Loading, Error(ErrorMessage(e))], vm.(uiState := Error(ErrorMessage(e))), false)
    case Returned(None) => DetailStep([Loading, Error(NotFoundMessage)], vm.(uiState := Error(NotFoundMessage)), false)
    case Returned(Some(found)) =>
      var state := Success(ToUIModel(found));
      DetailStep([Loading, state], DetailViewModel(state, Collect(vm.currentPosition, positions.events)), true)
  }

  /**
   * With the real position use case behind it, a found satellite ends up
   * showing the last position of its history, and an empty history leaves
   * the position unset on a fresh view model.
   */
  lemma ShowsLastPositionOfHistory<P>(detail: SatelliteDetailDomainModel, history: seq<P>)
    ensures var r := LoadSatelliteDetail(Init<P>(), Returned(Some(detail)), Stream.Invoke(Returned(history)));
            && r.after.uiState == Success(ToUIModel(detail))
            && (history == [] ==> r.after.currentPosition == None)
            && (history != [] ==> r.after.currentPosition == Some(history[|history| - 1]))
  {
    Stream.EmitsHistoryInOrder(history);
  }

  /**
   * A position stream that fails after emitting some positions keeps the
   * last of them and leaves the screen in `Success`.
   */
  lemma StreamFailureKeepsLastPosition<P>(
    vm: DetailViewModel<P>, detail: SatelliteDetailDomainModel, emitted: seq<P>, e: Exception)
    requires emitted != []
    ensures var flow := Stream.Run(seq(|emitted|, i requires 0 <= i < |emitted| => Stream.Emit(emitted[i])), Stream.Failed(e));
            var r := LoadSatelliteDetail(vm, Returned(Some(detail)), flow);
            r.after.uiState.Success? && r.after.currentPosition == Some(emitted[|emitted| - 1])
  {
    EmittedOfEmits(emitted);
  }

  lemma {:induction false} EmittedOfEmits<P>(ps: seq<P>)
    ensures Stream.Emitted(seq(|ps|, i requires 0 <= i < |ps| => Stream.Emit(ps[i]))) == ps
  {
    var events := seq(|ps|, i requires 0 <= i < |ps| => Stream.Emit(ps[i]));
    if |ps| > 0 {
      EmittedOfEmits(ps[1..]);
      assert events[1..] == seq(|ps[1..]|, i requires 0 <= i < |ps[1..]| => Stream.Emit(ps[1..][i]));
    }
  }

  /** A failed detail fetch never starts the stream, so the position stays unset on a fresh view model. */
  lemma NotFoundLeavesPositionUnset<P>(positions: Stream.Run<P>)
    ensures var r := LoadSatelliteDetail(Init<P>(), Returned(None), positions);
            r.after == DetailViewModel(Error(NotFoundMessage), None) && !r.startedPositions
  {
  }
}
