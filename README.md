# SpatialTravel core, modelled in Dafny

SpatialTravel is a visionOS travel app: a window lists destinations, a detail panel describes the
selected one, and an immersive globe shows a pin per destination. The code also holds three input
components: a gaze-highlight component and system, an input coordinator for taps and drags, and a
hand-tracking pinch detector. The app's `ImmersiveView` does not wire them up. It attaches no
`GazeHighlightComponent`, registers no system, never sets `isHighlighted`, creates no
`SpatialInputManager`, handles taps and drags with its own gestures, and reads no pinch state. The model
therefore treats these three as stand-alone components, each modelled as its own code defines it. This
project models the app's sequential logic and proves what that logic promises:

- `App` (`app_model.dfy`): the app state (`AppModel`) — a loading machine `idle → loading → loaded | error`
  that only proceeds from `idle`, and the selection pair `selectedDestination` / `isShowingDetail`. Each
  class method is tied to a pure function of the old state (`Load`, `Select`, `Clear`).
- `ImmersiveToggle` (`content_view.dfy`): the toggle button's `Task`, which writes `immersiveSpaceState`
  step by step, and the button's enablement, label and accessibility hint.
- `DestinationSearch` (`destination_list_view.dfy`): the case-insensitive search filter over name, country
  and tags, and the list row's two-tag summary.
- `DetailPanel` (`destination_detail_panel.dfy`): the flow layout's greedy line-wrapping loop, its
  `sizeThatFits` and `placeSubviews`, and the "Read more" / line-limit rule.
- `Destinations` and `DestinationService` (`destination.dfy`, `destination_service.dfy`): the destination
  record, price ranges, the five-entry sample catalogue, and the live and mock services.
- `SpatialInput` (`spatial_input_manager.dfy`): the stand-alone input coordinator — tap resolution through a first-match
  lookup of the tapped pin's id, drag rotation, and the last input method and time.
- `HandTracking` (`hand_tracking.dfy`): the stand-alone pinch detector — two hand slots, one shared `isPinching` flag, a
  sticky `pinchPosition`, `start`, `stop` and `jointPosition`.
- `GazeHighlight` (`gaze_highlight.dfy`): the stand-alone gaze component's defaults and the per-frame
  easing of an entity's scale, `s := s + (t − s)·0.12`, for any entity that carries the component.
- `Vectors` and `Wrappers` are shared helpers (3-vectors over reals; `Option` and first-match search).

Floating-point numbers (`Float`, `Double`, `CGFloat`) are modelled as reals. Strings are `seq<char>`.
A `UUID` is modelled by its `uuidString`, so two ids are equal exactly when their strings are. The sample
ids are fixed, distinct placeholder strings standing in for the fresh `UUID()` values of the catalogue.
Clock readings (`Date.now`), the result of opening the immersive space, the result of a fetch, hand-tracking
support, the session start and the stream of anchor updates are parameters of the operations.

The model follows the code in these places:
- An anchor update with `isTracked == false` is skipped entirely. The stored anchor for that hand is not
  cleared (`HandTrackingManager.swift:51`).
- `pinchPosition` keeps its old value when a reading is not a pinch (`HandTrackingManager.swift:89-91`).
- There is one `isPinching` flag for both hands, so the last complete reading decides it, whichever hand it
  came from (`HandTrackingManager.swift:14, 62`).
- The pinch test compares `distance < 0.02`; the model compares the squared distance with `0.0004`.
  `HandTracking.SquaredThresholdIsThreshold` proves the two tests agree.

## Model

| member | source | states |
|---|---|---|
| App.Initial | SpatialTravel/App/AppModel.swift:20-24 | the app starts with no selection, the detail hidden, no destinations, loading idle and the immersive space closed |
| App.Load | SpatialTravel/App/AppModel.swift:34-44 | when not idle nothing changes; when idle a fetched list replaces `destinations` and the state becomes loaded; a failure sets `error(description)` and keeps `destinations` |
| App.Select | SpatialTravel/App/AppModel.swift:48-51 | the destination becomes the selection and the detail is shown; destinations, loading and immersive state are kept |
| App.Clear | SpatialTravel/App/AppModel.swift:53-56 | the selection is cleared and the detail hidden; destinations, loading and immersive state are kept |
| App.LoadAtMostOnce | SpatialTravel/App/AppModel.swift:35 | a second load changes nothing, whatever its outcome |
| App.LoadKeepsSelection | SpatialTravel/App/AppModel.swift:34-44 | loading never touches the selection, the detail flag or the immersive state |
| App.ClearAfterSelect | SpatialTravel/App/AppModel.swift:48-56 | clearing after a selection is the same as clearing without it |
| App.LoadThenSelectFirst | SpatialTravelTests/AppModelTests.swift:15-31 | loading the samples from the initial state gives a non-empty loaded list, and selecting its first entry selects it and shows the detail |
| App.AppModel.constructor | SpatialTravel/App/AppModel.swift:20-24 | a new model is in the initial state |
| App.AppModel.LoadDestinations | SpatialTravel/App/AppModel.swift:34-44 | the new state is `Load` of the old state and the fetch outcome |
| App.AppModel.SelectDestination | SpatialTravel/App/AppModel.swift:48-51 | the new state is `Select` of the old state |
| App.AppModel.ClearSelection | SpatialTravel/App/AppModel.swift:53-56 | the new state is `Clear` of the old state |
| ImmersiveToggle.ToggleWrites | SpatialTravel/App/ContentView.swift:40-57 | a press in transition writes nothing; otherwise it first writes `inTransition`; from open nothing more; from closed it then writes open exactly when the result is `.opened`, else closed |
| ImmersiveToggle.ToggleOutcomes | SpatialTravel/App/ContentView.swift:40-57 | the final state: from closed, open if opened and closed otherwise; from open, in transition; in transition, unchanged |
| ImmersiveToggle.ButtonPresentation | SpatialTravel/App/ContentView.swift:60-68 | the label is "Exit Globe" / `xmark.circle` and the hint names closing exactly when open, else "Explore Globe" / `globe`; the button is disabled exactly in transition |
| ImmersiveToggle.OpeningReenablesButton | SpatialTravel/App/ContentView.swift:44-65 | a press from closed always ends with the button enabled |
| ImmersiveToggle.ExitLeavesButtonDisabled | SpatialTravel/App/ContentView.swift:41-65 | after a press from open, whatever the open result parameter, the button stays disabled through any number of further presses |
| ImmersiveToggle.StuckInTransition | SpatialTravel/App/ContentView.swift:55-56 | no sequence of presses leaves the transition state |
| ImmersiveToggle.AfterToggleCorrected | SpatialTravel/App/ContentView.swift:41-43 | the corrected toggle: after dismissing, the space is closed; the other cases are as written |
| ImmersiveToggle.CorrectedToggleSettles | SpatialTravel/App/ContentView.swift:40-65 | with the correction every press from a settled state ends with the button enabled, and it ends open only after a successful open from closed |
| ImmersiveToggle.ToggleImmersiveSpace | SpatialTravel/App/ContentView.swift:38-57 | the button's `Task` leaves `immersiveSpaceState` at the final state of `ToggleWrites` and changes no other field |
| DestinationSearch.Lower | SpatialTravel/Views/Panels/DestinationListView.swift:11 | lowercasing keeps the length and maps each character |
| DestinationSearch.LowerIdempotent | SpatialTravel/Views/Panels/DestinationListView.swift:11-15 | lowercasing twice is lowercasing once |
| DestinationSearch.Contains | SpatialTravel/Views/Panels/DestinationListView.swift:13-15 | true exactly when the needle occurs at some position of the haystack |
| DestinationSearch.AnyTagContains | SpatialTravel/Views/Panels/DestinationListView.swift:15 | true exactly when some lowercased tag contains the query |
| DestinationSearch.Filter | SpatialTravel/Views/Panels/DestinationListView.swift:12-16 | a destination is kept exactly when it matches, with its multiplicity; the result is no longer than the input |
| DestinationSearch.FilterIsSubsequence | SpatialTravel/Views/Panels/DestinationListView.swift:12 | the filter's result is an order-preserving subsequence of the input |
| DestinationSearch.FilteredDestinationsSpec | SpatialTravel/Views/Panels/DestinationListView.swift:7-17 | empty search text returns the list unchanged; the result is always a subsequence; with text, a destination is in it exactly when the lowercased query is in its lowercased name, country or a tag |
| DestinationSearch.SearchIgnoresCase | SpatialTravel/Views/Panels/DestinationListView.swift:11-15 | queries that agree after lowercasing give the same result |
| DestinationSearch.TagSummary | SpatialTravel/Views/Panels/DestinationListView.swift:58 | no tags give "", one tag gives itself, two or more give the first two joined by ", " |
| DestinationSearch.TagSummaryIgnoresLaterTags | SpatialTravel/Views/Panels/DestinationListView.swift:58 | tags after the second never show in the summary |
| DetailPanel.Layout | SpatialTravel/Views/Panels/DestinationDetailPanel.swift:121-143 | the layout has exactly one position per subview |
| DetailPanel.LayoutInvariant | SpatialTravel/Views/Panels/DestinationDetailPanel.swift:129-141 | the loop's running width is the maximum right edge and its height the maximum bottom edge of the subviews placed so far |
| DetailPanel.LayoutPrefix | SpatialTravel/Views/Panels/DestinationDetailPanel.swift:129-136 | positions are produced in subview order: laying out a prefix gives the prefix of the positions |
| DetailPanel.FirstAtOrigin | SpatialTravel/Views/Panels/DestinationDetailPanel.swift:124-136 | the first subview is placed at (0, 0) |
| DetailPanel.WrapRule | SpatialTravel/Views/Panels/DestinationDetailPanel.swift:131-136 | a subview starts a new row (x = 0, y grows by the row height plus spacing) exactly when it would pass `maxWidth` and is not first on its row; otherwise it follows on the same row after the previous one and the spacing |
| DetailPanel.FitsUnlessFirstOnRow | SpatialTravel/Views/Panels/DestinationDetailPanel.swift:131 | with a proposed width, a subview that does not start its row fits within that width (a subview at a row's start may be wider; `WrapRule` shows it is never wrapped) |
| DetailPanel.RowsDoNotOverlap | SpatialTravel/Views/Panels/DestinationDetailPanel.swift:133 | for non-negative spacing each subview either starts a row at x = 0 no higher than the previous subview, or follows it on the same row at or beyond its right edge |
| DetailPanel.YNonDecreasing | SpatialTravel/Views/Panels/DestinationDetailPanel.swift:133 | y positions never decrease along the subviews, for non-negative spacing |
| DetailPanel.XNonDecreasingInRow | SpatialTravel/Views/Panels/DestinationDetailPanel.swift:138 | for non-negative widths and spacing, x is never negative and a subview not at a row start is on the previous subview's row, at or right of it |
| DetailPanel.NonNegativeX | SpatialTravel/Views/Panels/DestinationDetailPanel.swift:124-138 | x positions are never negative, for non-negative widths and spacing |
| DetailPanel.UnboundedIsOneRow | SpatialTravel/Views/Panels/DestinationDetailPanel.swift:122-131 | with no proposed width every subview shares y = 0, each at the sum of the earlier widths and spacings |
| DetailPanel.TotalSizeIsBoundingBox | SpatialTravel/Views/Panels/DestinationDetailPanel.swift:127-140 | the total size is the maximum right edge by the maximum bottom edge; both are 0 for no subviews |
| DetailPanel.ComputeLayout | SpatialTravel/Views/Panels/DestinationDetailPanel.swift:121-143 | the loop returns the `Layout` of the subview sizes: one position per subview, the first at the origin, and the bounding size |
| DetailPanel.SizeThatFits | SpatialTravel/Views/Panels/DestinationDetailPanel.swift:106-109 | the fitting size is the layout's total size, zero with no subviews |
| DetailPanel.PlaceSubviews | SpatialTravel/Views/Panels/DestinationDetailPanel.swift:111-119 | each subview is placed at the bounds' origin plus its computed position |
| DetailPanel.LineLimit | SpatialTravel/Views/Panels/DestinationDetailPanel.swift:64 | no line limit when expanded, three lines otherwise |
| DetailPanel.ReadMoreTitle | SpatialTravel/Views/Panels/DestinationDetailPanel.swift:67 | the button reads "Read more" exactly while collapsed and "Show less" exactly while expanded |
| DetailPanel.ReadMoreButtonRule | SpatialTravel/Views/Panels/DestinationDetailPanel.swift:64-67 | `ShowsReadMoreButton` holds exactly for descriptions longer than 120 characters, so appending text never removes the button; where it shows, the text is unlimited exactly when the button offers "Show less" |
| DetailPanel.SamplesReadMore | SpatialTravel/Views/Panels/DestinationDetailPanel.swift:66 | among the samples only Kyoto's description is longer than 120 characters and gets the "Read more" button |
| Destinations.PriceRangeFromRaw | SpatialTravel/Models/Destination.swift:19-24 | a raw string found maps to the price range with that raw value |
| Destinations.PriceRangeCases | SpatialTravel/Models/Destination.swift:19-24 | the four cases are all the cases and their raw values "$", "$$", "$$$", "$$$$" are pairwise distinct |
| Destinations.PriceRangeRoundTrip | SpatialTravel/Models/Destination.swift:19-24 | reading back a raw value gives the same price range |
| Destinations.PriceRangesOf | SpatialTravel/Models/Destination.swift:11 | the set holds exactly the price ranges that occur in the list |
| Destinations.SamplesCount | SpatialTravel/Models/Destination.swift:28-84 | the catalogue has five entries |
| Destinations.SamplesHaveDistinctIds | SpatialTravelTests/DestinationTests.swift:9-12 | the sample ids are pairwise distinct |
| Destinations.SamplesHaveValidCoordinates | SpatialTravelTests/DestinationTests.swift:14-21 | every sample latitude is in [-90, 90] and longitude in [-180, 180] |
| Destinations.SamplesHaveTags | SpatialTravelTests/DestinationTests.swift:23-27 | every sample has at least one tag |
| Destinations.SamplesCoverPriceRanges | SpatialTravelTests/DestinationTests.swift:29-32 | the samples use at least two distinct price ranges |
| DestinationService.FindById | SpatialTravel/Services/DestinationService.swift:20-31 | the result is the first destination with that id; none exactly when no destination has it |
| DestinationService.FetchDestinationsIsSamples | SpatialTravel/Services/DestinationService.swift:13-28 | both services return exactly the sample catalogue |
| DestinationService.FindByIdOfMember | SpatialTravelTests/DestinationServiceTests.swift:11-18 | with distinct ids, looking up a member's id returns that member |
| DestinationService.FetchDetailFindsSamples | SpatialTravel/Services/DestinationService.swift:18-32 | a found detail has the requested id, and each sample's id finds that sample |
| DestinationService.FetchDetailMiss | SpatialTravelTests/DestinationServiceTests.swift:20-24 | an id that no sample has gives no detail |
| SpatialInput.RawValue | SpatialTravel/Input/SpatialInputManager.swift:20-24 | the input methods' raw strings are "indirect", "direct" and "gesture" |
| SpatialInput.SelectionTarget | SpatialTravel/Input/SpatialInputManager.swift:48-49 | the lookup finds the first destination whose id string is `id`, and nothing exactly when no destination has it |
| SpatialInput.TapTarget | SpatialTravel/Input/SpatialInputManager.swift:32-49 | a tap targets the first destination whose id string is the pin's `destinationID`; nothing without a component or without a match |
| SpatialInput.TapSelectsTaggedDestination | SpatialTravel/Input/SpatialInputManager.swift:32-51 | tapping any pin whose component carries the id string of a loaded destination, highlighted or not, selects that destination and shows the detail, with distinct ids |
| SpatialInput.TapWithoutTargetChangesNothing | SpatialTravel/Input/SpatialInputManager.swift:32-49 | a tap on an untagged pin, or on one naming no loaded destination, leaves the app state unchanged |
| SpatialInput.DragRotation | SpatialTravel/Input/SpatialInputManager.swift:41-42 | a drag turns by `translation.x * 0.005` radians about the vertical axis |
| SpatialInput.DragsAccumulateYaw | SpatialTravel/Input/SpatialInputManager.swift:41-43 | a yaw-only orientation stays yaw-only under drags, and turns by 0.005 times the total horizontal drag |
| SpatialInput.SpatialInputManager.constructor | SpatialTravel/Input/SpatialInputManager.swift:15-18 | a new manager has no interaction time, the indirect input method and a fresh, idle hand tracker |
| SpatialInput.SpatialInputManager.HandleTap | SpatialTravel/Input/SpatialInputManager.swift:28-35 | the input method becomes gesture and the time is recorded; the app state becomes the selection of the tap target, or stays as it was |
| SpatialInput.SpatialInputManager.HandleDrag | SpatialTravel/Input/SpatialInputManager.swift:37-44 | the input method becomes gesture and the time is recorded; the drag rotation is composed in front of the entity's rotation |
| SpatialInput.SpatialInputManager.SelectDestination | SpatialTravel/Input/SpatialInputManager.swift:48-52 | the first destination with the id string is selected in the app model; on a miss the app model is unchanged |
| HandTracking.SquaredThresholdIsThreshold | SpatialTravel/Input/HandTrackingManager.swift:85-88 | for a non-negative distance, its square is below 0.0004 exactly when it is below 0.02 |
| HandTracking.Initial | SpatialTravel/Input/HandTrackingManager.swift:12-17 | the tracker starts with no anchors, not pinching, no pinch position and not running |
| HandTracking.PinchTips | SpatialTravel/Input/HandTrackingManager.swift:68-72 | a reading exists exactly when the skeleton has both fingertips and both are tracked |
| HandTracking.UpdatePinch | SpatialTravel/Input/HandTrackingManager.swift:67-92 | without a reading nothing changes; with one, `isPinching` is the threshold test and `pinchPosition` becomes the midpoint when pinching, else keeps its value; anchors and running flag are kept |
| HandTracking.UntrackedAnchorIgnored | SpatialTravel/Input/HandTrackingManager.swift:51 | an untracked anchor changes nothing |
| HandTracking.TrackedAnchorStored | SpatialTravel/Input/HandTrackingManager.swift:53-72 | a tracked anchor goes into its hand's slot, the other slot and the running flag are kept, and the pinch fields are kept unless both tips are tracked |
| HandTracking.PinchExamples | SpatialTravel/Input/HandTrackingManager.swift:85-88 | fingertips 0.01 apart pinch and 0.05 apart do not |
| HandTracking.ProcessAllSummary | SpatialTravel/Input/HandTrackingManager.swift:48-91 | after a stream each slot holds its hand's last tracked anchor, `isPinching` is decided by the last complete reading of either hand, and `pinchPosition` is the midpoint of the last pinch, each falling back to the old value |
| HandTracking.Stopped | SpatialTravel/Input/HandTrackingManager.swift:37-44 | stopping clears both anchors, the pinch flag and position, and the running flag |
| HandTracking.StopIdempotent | SpatialTravel/Input/HandTrackingManager.swift:37-44 | stopping twice is stopping once, and a stopped tracker reports no joint positions |
| HandTracking.StartFailures | SpatialTravel/Input/HandTrackingManager.swift:21-35 | an unsupported host changes nothing; a failed session start leaves the tracker not running, and a fresh tracker that cannot start stays not running |
| HandTracking.StartedRuns | SpatialTravel/Input/HandTrackingManager.swift:27-30 | after a successful start the tracker is running |
| HandTracking.JointPositionIn | SpatialTravel/Input/HandTrackingManager.swift:95-108 | a position exists exactly when that hand has a stored anchor with a skeleton holding the joint tracked, and it is that joint's world position |
| HandTracking.HandTrackingManager.JointPosition | SpatialTravel/Input/HandTrackingManager.swift:95-108 | the field-level lookup (the slot chosen by chirality, then the skeleton, joint and `isTracked` guards) equals `JointPositionIn` of the tracker's state, so it inherits that function's both-ways characterisation |
| HandTracking.HandTrackingManager.constructor | SpatialTravel/Input/HandTrackingManager.swift:12-17 | a new tracker is in the initial state |
| HandTracking.HandTrackingManager.Start | SpatialTravel/Input/HandTrackingManager.swift:21-35 | the new state is `Started` of the old state and the host's answers |
| HandTracking.HandTrackingManager.Stop | SpatialTravel/Input/HandTrackingManager.swift:37-44 | the new state is `Stopped` of the old state |
| HandTracking.HandTrackingManager.ProcessUpdates | SpatialTravel/Input/HandTrackingManager.swift:48-64 | the new state is the old state with every update of the stream processed in order |
| HandTracking.HandTrackingManager.UpdatePinchState | SpatialTravel/Input/HandTrackingManager.swift:67-92 | the new state is `UpdatePinch` of the old state and the anchor |
| GazeHighlight.NewComponent | SpatialTravel/Input/GazeHighlightSystem.swift:5-15 | a new component carries the given id and radii and is not highlighted |
| GazeHighlight.NewComponentDefaults | SpatialTravel/Input/GazeHighlightSystem.swift:11 | the default radii are 0.012 and 0.018 |
| GazeHighlight.EasedApproaches | SpatialTravel/Input/GazeHighlightSystem.swift:31 | one step lies between the old scale and the target, shrinks the distance to 0.88 of itself, and a scale at its target stays there |
| GazeHighlight.FirstHighlightedFrame | SpatialTravel/Input/GazeHighlightSystem.swift:29-31 | from 1.0 toward the highlighted target 1.5, one frame gives 1.06 |
| GazeHighlight.EasedFramesDistance | SpatialTravel/Input/GazeHighlightSystem.swift:31 | after n frames the distance to the target is 0.88^n of the start |
| GazeHighlight.EasedFramesMonotone | SpatialTravel/Input/GazeHighlightSystem.swift:29-31 | easing up toward a higher target (a pin being highlighted), repeated frames grow monotonically and never pass the target |
| GazeHighlight.EasedFramesMonotoneDown | SpatialTravel/Input/GazeHighlightSystem.swift:29-31 | easing down toward a lower target (a pin no longer highlighted), repeated frames shrink monotonically and never pass the target |
| GazeHighlight.Update | SpatialTravel/Input/GazeHighlightSystem.swift:25-34 | each entity with a component gets its x scale eased toward 1.5 or 1.0 on all three axes; entities without one keep their scale; components and rotations are unchanged |
| Wrappers.FirstWhere | SpatialTravel/Services/DestinationService.swift:20 | the result is the first element satisfying the predicate, none exactly when no element does |

## Left out

- Wiring of the input components: `ImmersiveView.swift` attaches no `GazeHighlightComponent`, calls no `registerSystem`, creates no `SpatialInputManager` and reads no `isPinching` or `pinchPosition`. Nothing in the app sets `isHighlighted`. The model states what each component does when a caller uses it, not that the app uses it.
- Globe geometry (`SpatialMath.swift`, `ImmersiveView.latLonToSpherePosition`): trigonometry and square roots on floating point, which Dafny's reals do not have.
- `ImmersiveView.swift`: RealityKit meshes, materials and gesture wiring. Its own tap handler matches destinations by `entity.name` and assigns `appModel.selectedDestination` directly, so it does not set `isShowingDetail`; only the lookup resembles `SpatialInput.SpatialInputManager.SelectDestination`.
- ARKit transforms: joint world positions are given inputs (`Joint.worldPosition`) instead of the product of `originFromAnchorTransform` and `anchorFromJointTransform`.
- Quaternions: an entity's rotation is a list of axis-angle factors, front first; quaternion multiplication and normalisation are not modelled.
- Concurrency: each `async` call runs to completion with its awaited result as a parameter; interleavings of other work at an `await` (a second toggle press or load) are not modelled. `Task.sleep` delays and `print` logging are left out.
- The anchor stream: `processUpdates` is modelled on a finite sequence of updates; the endless `for await` stream is not.
- `@unknown default` for hand chirality: the model has only left and right, so that branch cannot occur.
- Rounding of `Float`, `Double` and `CGFloat`; all arithmetic is exact.
- `String.lowercased()` follows Unicode; the model lowercases ASCII letters only.
- DetailPanel.ShowsReadMoreButton and DestinationSearch.Contains: a model string is a sequence of Unicode scalars, while Swift's `String.count` counts grapheme clusters and `String.contains` compares under canonical equivalence. They agree with Swift only where every character is a single scalar, which holds for all the sample text; combining marks, multi-scalar emoji and decomposed against precomposed letters are not modelled.
- `UUID()` generation and `uuidString` formatting; ids are fixed distinct strings.
- SwiftUI and RealityKit chrome (view bodies, fonts, materials, animations, component and system registration), the list's selection binding and the detail panel's other sections.
- The layout's spacing is a parameter of every layout member; the default of 8 and the tags section's `FlowLayout(spacing: 8)` are not separate members.
- `immersiveSpaceID` ("ImmersiveSpace") is only passed to `openImmersiveSpace`, whose result is a parameter, so the model does not carry it.
- `FlowLayout` calls `subview.sizeThatFits(.unspecified)`; the model takes the measured sizes as input.
- GazeHighlight.Update: requires the entities to be distinct, which RealityKit's entity query guarantees but the model cannot see.
- The live service's delay test (`DestinationServiceTests.swift:26-32`) is about timing and is left out.

## Findings

| source | as written | input that shows it | evidently intended | confidence | as-written member | corrected member |
|---|---|---|---|---|---|---|
| SpatialTravel/App/ContentView.swift:41-43 | pressing "Exit Globe" sets `immersiveSpaceState` to `.inTransition`, awaits `dismissImmersiveSpace()` and never writes it again; nothing else in the app resets it | state `open`, one press, then any number of presses | after dismissing, the state becomes `.closed` so the button is enabled again | not executed | ImmersiveToggle.ExitLeavesButtonDisabled | ImmersiveToggle.CorrectedToggleSettles |
