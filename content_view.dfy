/** The immersive-space toggle button of the main window. */
module ImmersiveToggle {
  import opened App

  /** The result of `openImmersiveSpace(id:)`; `Unknown` stands for any future case. */
  datatype OpenResult = Opened | UserCancelled | OpenError | Unknown

  /** The states the toggle writes into `immersiveSpaceState`, in order, for one press. */
  function ToggleWrites(s: ImmersiveSpaceState, result: OpenResult): (w: seq<ImmersiveSpaceState>)
    ensures s == InTransition <==> w == []
    ensures s != InTransition ==> w[0] == InTransition
    ensures s == Open ==> w == [InTransition]
    ensures s == Closed ==> |w| == 2 && (w[1] == Open <==> result == Opened)
    ensures s == Closed && result != Opened ==> w[1] == Closed
  {
    match s
    case Open => [InTransition]
    case Closed => [InTransition, if result.Opened? then Open else Closed]
    case InTransition => []
  }

  /** The state once the toggle's task has finished. */
  function AfterToggle(s: ImmersiveSpaceState, result: OpenResult): (r: ImmersiveSpaceState)
  {
    var w := ToggleWrites(s, result);
    if w == [] then s else w[|w| - 1]
  }

  /** `.disabled(...)`: the button is disabled exactly while a transition is in progress. */
  predicate ButtonDisabled(s: ImmersiveSpaceState)
  {
    s == InTransition
  }

  datatype Label = Label(title: string, systemImage: string)

  function ButtonLabel(s: ImmersiveSpaceState): Label
  {
    if s == Open then Label("Exit Globe", "xmark.circle") else Label("Explore Globe", "globe")
  }

  function AccessibilityHint(s: ImmersiveSpaceState): string
  {
    if s == Open then "Double-tap to close the immersive globe view"
    else "Double-tap to open an immersive 3D globe"
  }

  /** The button's label and hint name the exit action exactly when the space is open,
      and it is disabled exactly in transition. */
  lemma ButtonPresentation(s: ImmersiveSpaceState)
    ensures ButtonLabel(s).title == "Exit Globe" <==> s == Open
    ensures ButtonLabel(s).systemImage == "xmark.circle" <==> s == Open
    ensures ButtonLabel(s) == Label("Explore Globe", "globe") <==> s != Open
    ensures AccessibilityHint(s) == "Double-tap to close the immersive globe view" <==> s == Open
    ensures AccessibilityHint(s) == "Double-tap to open an immersive 3D globe" <==> s != Open
    ensures ButtonDisabled(s) <==> s == InTransition
  {
  }

  /** Outcomes of one press: from `closed` the space ends open exactly when the open succeeded,
      otherwise closed again; from `open` it stays in transition; in transition nothing happens. */
  lemma ToggleOutcomes(s: ImmersiveSpaceState, result: OpenResult)
    ensures s == Closed ==> AfterToggle(s, result) == (if result == Opened then Open else Closed)
    ensures s == Open ==> AfterToggle(s, result) == InTransition
    ensures s == InTransition ==> AfterToggle(s, result) == InTransition
  {
  }

  /** A press from `closed` always leaves the button enabled again. */
  lemma OpeningReenablesButton(result: OpenResult)
    ensures !ButtonDisabled(AfterToggle(Closed, result))
  {
  }

  /** As written, a press from `open` leaves the state in transition, and every further press
      leaves it there: the button stays disabled for good. */
  lemma ExitLeavesButtonDisabled(result: OpenResult, presses: seq<OpenResult>)
    ensures ButtonDisabled(AfterPresses(AfterToggle(Open, result), presses))
  {
    StuckInTransition(presses);
  }

  /** The state after a series of presses, each with the given open result. */
  function AfterPresses(s: ImmersiveSpaceState, presses: seq<OpenResult>): ImmersiveSpaceState
    decreases |presses|
  {
    if presses == [] then s else AfterPresses(AfterToggle(s, presses[0]), presses[1..])
  }

  lemma {:induction false} StuckInTransition(presses: seq<OpenResult>)
    ensures AfterPresses(InTransition, presses) == InTransition
    decreases |presses|
  {
    if presses != [] {
      StuckInTransition(presses[1..]);
    }
  }

  /** The evidently intended toggle: after `dismissImmersiveSpace()` returns, the space is closed. */
  function AfterToggleCorrected(s: ImmersiveSpaceState, result: OpenResult): (r: ImmersiveSpaceState)
    ensures s == Open ==> r == Closed
    ensures s != Open ==> r == AfterToggle(s, result)
  {
    if s == Open then Closed else AfterToggle(s, result)
  }

  /** With the correction, every press from a settled state ends with the button enabled again. */
  lemma CorrectedToggleSettles(s: ImmersiveSpaceState, result: OpenResult)
    requires s != InTransition
    ensures !ButtonDisabled(AfterToggleCorrected(s, result))
    ensures AfterToggleCorrected(s, result) == Open ==> s == Closed && result == Opened
  {
  }

  /** The toggle's `Task`, run to completion: it writes `app.immersiveSpaceState` step by step
      and nothing else. */
  method ToggleImmersiveSpace(app: AppModel, result: OpenResult)
    modifies app
    ensures app.immersiveSpaceState == AfterToggle(old(app.immersiveSpaceState), result)
    ensures app.State() == old(app.State()).(immersiveSpaceState := app.immersiveSpaceState)
  {
    match app.immersiveSpaceState {
      case Open =>
        app.immersiveSpaceState := InTransition;
        // dismissImmersiveSpace() is awaited here; nothing is written afterwards
      case Closed =>
        app.immersiveSpaceState := InTransition;
        // openImmersiveSpace(id:) is awaited here and yields `result`
        match result {
          case Opened => app.immersiveSpaceState := Open;
          case UserCancelled => app.immersiveSpaceState := Closed;
          case OpenError => app.immersiveSpaceState := Closed;
          case Unknown => app.immersiveSpaceState := Closed;
        }
      case InTransition =>
    }
  }
}
