/** The application model: loading state machine, destination list, selection and the
    immersive-space state, held in one observable object. */
module App {
  import opened Wrappers
  import opened Destinations

  datatype ImmersiveSpaceState = Closed | InTransition | Open

  datatype LoadingState = Idle | Loading | Loaded | Error(message: string)

  /** What `service.fetchDestinations()` produced: a list, or a thrown error's description. */
  datatype FetchOutcome = Fetched(list: seq<Destination>) | Failed(description: string)

  /** The observable fields of an `AppModel`, as one value. */
  datatype AppState = AppState(
    immersiveSpaceState: ImmersiveSpaceState,
    selectedDestination: Option<Destination>,
    isShowingDetail: bool,
    loadingState: LoadingState,
    destinations: seq<Destination>)

  /** The state of a freshly initialised model. */
  function Initial(): (s: AppState)
    ensures s.selectedDestination == None && !s.isShowingDetail
    ensures s.destinations == [] && s.loadingState == Idle && s.immersiveSpaceState == Closed
  {
    AppState(Closed, None, false, Idle, [])
  }

  /** `loadDestinations()`, with the fetch's outcome as a parameter: it proceeds only from
      `idle`, and then ends `loaded` with the fetched list or `error` with the list untouched. */
  function Load(s: AppState, outcome: FetchOutcome): (r: AppState)
    ensures s.loadingState != Idle ==> r == s
    ensures s.loadingState == Idle && outcome.Fetched? ==>
      r == s.(destinations := outcome.list, loadingState := Loaded)
    ensures s.loadingState == Idle && outcome.Failed? ==>
      r == s.(loadingState := Error(outcome.description))
  {
    if !s.loadingState.Idle? then s
    else
      match outcome
      case Fetched(list) => s.(destinations := list, loadingState := Loaded)
      case Failed(description) => s.(loadingState := Error(description))
  }

  /** `selectDestination(_:)`. */
  function Select(s: AppState, d: Destination): (r: AppState)
    ensures r.selectedDestination == Some(d) && r.isShowingDetail
    ensures r.destinations == s.destinations && r.loadingState == s.loadingState
    ensures r.immersiveSpaceState == s.immersiveSpaceState
  {
    s.(selectedDestination := Some(d), isShowingDetail := true)
  }

  /** `clearSelection()`. */
  function Clear(s: AppState): (r: AppState)
    ensures r.selectedDestination == None && !r.isShowingDetail
    ensures r.destinations == s.destinations && r.loadingState == s.loadingState
    ensures r.immersiveSpaceState == s.immersiveSpaceState
  {
    s.(selectedDestination := None, isShowingDetail := false)
  }

  /** A second load changes nothing, whatever it fetches: loading happens at most once. */
  lemma LoadAtMostOnce(s: AppState, first: FetchOutcome, second: FetchOutcome)
    ensures Load(Load(s, first), second) == Load(s, first)
  {
  }

  /** Loading never touches the selection or the immersive-space state. */
  lemma LoadKeepsSelection(s: AppState, outcome: FetchOutcome)
    ensures Load(s, outcome).selectedDestination == s.selectedDestination
    ensures Load(s, outcome).isShowingDetail == s.isShowingDetail
    ensures Load(s, outcome).immersiveSpaceState == s.immersiveSpaceState
  {
  }

  /** Clearing undoes a selection: select-then-clear equals clear alone. */
  lemma ClearAfterSelect(s: AppState, d: Destination)
    ensures Clear(Select(s, d)) == Clear(s)
  {
  }

  /** The model as it behaves in the tests: initial state, successful load of the samples,
      selection of the first entry. */
  lemma LoadThenSelectFirst()
    ensures var loaded := Load(Initial(), Fetched(Samples));
      loaded.loadingState == Loaded && loaded.destinations == Samples && |loaded.destinations| > 0 &&
      Select(loaded, loaded.destinations[0]).selectedDestination == Some(Samples[0]) &&
      Select(loaded, loaded.destinations[0]).isShowingDetail
  {
    SamplesCount();
  }

  class AppModel {
    var immersiveSpaceState: ImmersiveSpaceState
    var selectedDestination: Option<Destination>
    var isShowingDetail: bool
    var loadingState: LoadingState
    var destinations: seq<Destination>

    /** The observable fields as one value. */
    function State(): AppState
      reads this
    {
      AppState(immersiveSpaceState, selectedDestination, isShowingDetail, loadingState, destinations)
    }

    constructor ()
      ensures State() == Initial()
    {
      immersiveSpaceState := Closed;
      selectedDestination := None;
      isShowingDetail := false;
      loadingState := Idle;
      destinations := [];
    }

    method LoadDestinations(outcome: FetchOutcome)
      modifies this
      ensures State() == Load(old(State()), outcome)
    {
      if !loadingState.Idle? {
        return;
      }
      loadingState := Loading;
      match outcome {
        case Fetched(list) =>
          destinations := list;
          loadingState := Loaded;
        case Failed(description) =>
          loadingState := Error(description);
      }
    }

    method SelectDestination(d: Destination)
      modifies this
      ensures State() == Select(old(State()), d)
    {
      selectedDestination := Some(d);
      isShowingDetail := true;
    }

    method ClearSelection()
      modifies this
      ensures State() == Clear(old(State()))
    {
      selectedDestination := None;
      isShowingDetail := false;
    }
  }
}
