# World War II Aircraft AR scatterplot — a verified model of its core

The app places a 3D scatterplot of World War II aircraft on an AR plane.

- **The plot.** Each aircraft record becomes a small cube whose X, Y and Z positions come from three chosen numeric attributes. The cube shows the flag of the aircraft's country, and the axes carry evenly spaced ticks.
- **Filtering.** Toggles for country, role and state restrict which records are plotted.
- **Detail cards.** Tapping a cube highlights it and opens a detail card in a row in front of the camera.
- **3D models.** A model spawned from a card can be dragged, pinched, twisted or tapped away.

This project models the six scripts that hold that behaviour, in their own form.

- **`PlotRoot`** (`plot_root.dfy`, with `plot_math.dfy` and `text.dfy`) models `AircraftPlotRootController`. Pure parts are functions:
  - the filter;
  - the positive min/max;
  - the country→flag map and its lookup;
  - the placement of points;
  - the ticks.

  The controller is a class whose fields `BuildPlot`, `SetMultiFilters` and friends update. Each method is proved against a pure plan. `PlanPlot` decides which of the four ends `BuildPlot` reaches, and `Render` gives the scene that end leaves behind. Spawned points, ticks and labels are values. `.NET`'s `string.Trim` and `string.IsNullOrWhiteSpace` are written out over `char.IsWhiteSpace`'s code points. Unity's `Mathf.Clamp01`, `Lerp` and `InverseLerp` are written out too.
- **`DataPointSelection`** (`data_point_selector.dfy`) models `DataPointSelector`. The class keeps the dictionary point→card and the ordered card list as fields. A ghost order of points ties them together: card `i` belongs to point `i`, with no repeats. `Valid()` combines that pairing, the highlight of every selected point, and the centred row layout. `Update`, `HandleRay`, `ToggleSelection`, `CloseCard`, `OpenCard`, `AddCard` and `OnDisable` keep it. The helpers `Forget` and `Remember` keep the pairing only, and `RepositionCards` states only the offsets it sets.
- **`DataPoints`** (`data_point.dfy`) models `AircraftDataPoint`: the highlight flag, the base-scale capture and the breathing scale.
- **`ModelDragging`** (`model_dragger.dfy`) models `AircraftModelDragger`. The press/drag/pinch state machine is specified as pure step functions on a `DragState` value. The class's methods are proved to perform exactly those steps. The lemmas state the drag-start rule, the tap test, the pinch baseline, and an invariant every frame keeps.
- **`TapToPlace`** (`tap_to_place.dfy`) models `TapToPlaceRoot` the same way. There are step functions per handler and a class whose methods perform them. Lemmas cover placement at most once over any run of frames, the long-press candidate, and the two-finger scale and twist.
- **`FilterSelection`** (`multi_filter_selector.dfy`) models `MultiFilterSelector`. The toggles are objects held in three arrays. `GetSelected` is a loop proved to return the labels of the toggles that are on, in array order. `ClearFilters` and `Start` are proved to hand the controller three empty lists and to leave it `Reapplied`: the mapping kept and, when one was recorded, the scene redrawn over the new filters. `PlotRoot.ClearedPlotShowsAll` shows that a plot over those lists draws every plottable record.
- **`AircraftData`** and **`Common`** hold the record type, the numeric attributes, vectors, poses and touches.

Inputs the engine supplies become parameters. These are time, the `Mathf.Sin` wave, pixel distances, `Atan2` twist angles, physics and AR raycast results, and "pointer over UI" tests. `float` is `real`, and `float.PositiveInfinity` and `float.NegativeInfinity` are the `ExtReal` ends.

## Model

| member | source | states |
|---|---|---|
| AircraftData.GetValue | Assets/Scripts/AircraftPlotRootController.cs:322-334 | an attribute other than the six known ones reads as 0; `Crew` reads the integer crew |
| AircraftData.DisplayName | Assets/Scripts/AircraftPlotRootController.cs:590-603 | a known attribute gets a non-empty caption, any other its own enum name |
| AircraftData.DisplayNamesDistinct | Assets/Scripts/AircraftPlotRootController.cs:590-603 | two different known attributes get different captions |
| Text.Trim | Assets/Scripts/AircraftPlotRootController.cs:125 | the result is an infix of the input with only white space before and after it, and it neither starts nor ends with white space |
| Text.BlankIffTrimmedEmpty | Assets/Scripts/AircraftPlotRootController.cs:122-125 | a string is blank (`IsNullOrWhiteSpace`) exactly when trimming leaves nothing, so every kept flag key is non-empty |
| Text.BlankTrimsToEmpty | Assets/Scripts/AircraftPlotRootController.cs:159-162 | a blank string trims to the empty string |
| Text.TrimmedEmptyIsBlank | Assets/Scripts/AircraftPlotRootController.cs:159-162 | a string that trims to nothing is blank |
| PlotMath.Clamp01 | Assets/Scripts/AircraftPlotRootController.cs:286-292 | the result lies in [0, 1] and equals the input when the input already does |
| PlotMath.Lerp | Assets/Scripts/AircraftPlotRootController.cs:290-292 | the interpolated value lies between the two ends, whichever is larger |
| PlotMath.InverseLerp | Assets/Scripts/AircraftPlotRootController.cs:286-288 | the parameter lies in [0, 1], also for an empty interval |
| PlotMath.Padded | Assets/Scripts/AircraftPlotRootController.cs:265-274 | the padded interval contains [min, max], strictly when min < max |
| PlotMath.Squeeze | Assets/Scripts/AircraftPlotRootController.cs:286-292 | every value is drawn at a fraction in [0.05, 0.95] of its axis |
| PlotMath.AxisCoordinateBounds | Assets/Scripts/AircraftPlotRootController.cs:286-296 | a plotted coordinate lies within [0.05·size, 0.95·size] of its axis |
| PlotMath.InverseLerpMonotone | Assets/Scripts/AircraftPlotRootController.cs:286-288 | a larger value never gets a smaller parameter |
| PlotMath.LerpMonotone | Assets/Scripts/AircraftPlotRootController.cs:290-292 | a larger parameter never gives a smaller value |
| PlotMath.SqueezeMonotone | Assets/Scripts/AircraftPlotRootController.cs:286-292 | a larger value is never drawn nearer the origin |
| PlotMath.SqueezeStrict | Assets/Scripts/AircraftPlotRootController.cs:286-292 | inside the padded interval two different values are drawn at different fractions, in order |
| PlotMath.AxisCoordinateStrict | Assets/Scripts/AircraftPlotRootController.cs:286-296 | inside the padded interval a smaller value is drawn strictly nearer the origin |
| PlotMath.TickParameter | Assets/Scripts/AircraftPlotRootController.cs:455-459 | `t = i / (sections - 1)` lies in [0, 1]; it is 0 for the first tick and 1 for the last |
| PlotMath.TickValueEnds | Assets/Scripts/AircraftPlotRootController.cs:457-473 | the first tick shows the minimum and the last the maximum |
| PlotMath.TickValueStep | Assets/Scripts/AircraftPlotRootController.cs:457-473 | consecutive tick values differ by (max - min) / (sections - 1) |
| PlotRoot.PassesFilters | Assets/Scripts/AircraftPlotRootController.cs:391-409 | a record passes iff each of the country, role and state lists is null, empty or contains the record's value |
| PlotRoot.FilteredMembers | Assets/Scripts/AircraftPlotRootController.cs:240 | the filtered list holds exactly the records that pass, and is no longer than the input |
| PlotRoot.NoFiltersKeepAll | Assets/Scripts/AircraftPlotRootController.cs:391-409 | with three empty lists every record is kept, in order |
| PlotRoot.PositiveRangeBounds | Assets/Scripts/AircraftPlotRootController.cs:343-362 | a range exists iff some record has a positive value; then 0 < min <= max and every positive value lies in [min, max] |
| PlotRoot.PositiveRangeAttained | Assets/Scripts/AircraftPlotRootController.cs:343-362 | min and max are each the value of some record |
| PlotRoot.TryGetMinMax | Assets/Scripts/AircraftPlotRootController.cs:337-363 | the loop succeeds iff the positive range exists and returns its ends; on failure min and max are still the infinities |
| PlotRoot.KeyOf | Assets/Scripts/AircraftPlotRootController.cs:122-125 | the key of a usable entry is its trimmed name and is never empty |
| PlotRoot.FlagMapFirstWins | Assets/Scripts/AircraftPlotRootController.cs:115-130 | a key is in the map iff some usable entry has it as its trimmed name, and it maps to the material of the first such entry |
| PlotRoot.FlagFor | Assets/Scripts/AircraftPlotRootController.cs:157-169 | a blank country gets the default; otherwise the material under the trimmed name, or the default when there is none |
| PlotRoot.FlagForEntries | Assets/Scripts/AircraftPlotRootController.cs:113-169 | after building, a country gets the material of the first usable entry whose trimmed name equals its trimmed name, else the default |
| PlotRoot.PointsForRecords | Assets/Scripts/AircraftPlotRootController.cs:276-318 | the spawned points are exactly the records positive on all three axes, one each, in record order |
| PlotRoot.PointsForMembers | Assets/Scripts/AircraftPlotRootController.cs:276-318 | every point is the point of a plottable record of the filtered list |
| PlotRoot.PointsForInBox | Assets/Scripts/AircraftPlotRootController.cs:286-299 | every point's local position lies within 5% of the faces of the width × height × depth box |
| PlotRoot.CoordinateKeepsOrder | Assets/Scripts/AircraftPlotRootController.cs:250-296 | of two records of the list, the one with the smaller value on an axis is drawn strictly nearer that axis's origin |
| PlotRoot.AxisTicks | Assets/Scripts/AircraftPlotRootController.cs:449-475 | no ticks when `axisSections < 2` or without a tick prefab, otherwise three per section |
| PlotRoot.AxisTicksRows | Assets/Scripts/AircraftPlotRootController.cs:457-475 | section `i`'s X, Y and Z ticks are the ticks at `t = i / (axisSections - 1)`, in that order |
| PlotRoot.AxisTicksEnds | Assets/Scripts/AircraftPlotRootController.cs:457-475 | the first section shows each axis's minimum at the origin, the last its maximum at the axis's far end |
| PlotRoot.AxisTicksStep | Assets/Scripts/AircraftPlotRootController.cs:457-475 | tick values grow by the same step from section to section on every axis |
| PlotRoot.PlanPlotPoints | Assets/Scripts/AircraftPlotRootController.cs:216-320 | nothing is built iff there are no records or no point prefab; a built plot's points are the filtered, all-positive records in order; every other end leaves no points; all points lie in the box |
| PlotRoot.PlotKeepsOrder | Assets/Scripts/AircraftPlotRootController.cs:250-296 | in a built plot, on every axis of positive length, a smaller value is drawn strictly nearer the origin |
| PlotRoot.AircraftPlotRootController.constructor | Assets/Scripts/AircraftPlotRootController.cs:87-110 | after `Awake`: the flag map is built from the entries, the three allow-lists are empty, no mapping is recorded and nothing is drawn |
| PlotRoot.AircraftPlotRootController.BuildCountryFlagMap | Assets/Scripts/AircraftPlotRootController.cs:113-133 | the map is cleared first, then holds the first material of every usable trimmed key (empty for a null array) |
| PlotRoot.AircraftPlotRootController.Start | Assets/Scripts/AircraftPlotRootController.cs:171-185 | with records and a prefab it builds Active Since × Max Speed × Number Built; otherwise nothing changes |
| PlotRoot.AircraftPlotRootController.BuildPlot | Assets/Scripts/AircraftPlotRootController.cs:216-320 | the scene becomes the plan's rendering: untouched without records or prefab; otherwise old points cleared and the mapping recorded, then unit captions if nothing passes, nothing more if an axis has no positive value, or captions, ticks and points |
| PlotRoot.AircraftPlotRootController.PlotFiltered | Assets/Scripts/AircraftPlotRootController.cs:243-319 | the stages of `BuildPlot` after filtering produce exactly the plan for the filtered records |
| PlotRoot.AircraftPlotRootController.SpawnPoints | Assets/Scripts/AircraftPlotRootController.cs:276-318 | the loop appends exactly the points of the plottable records, with the flag material, the black fallback or the prefab's own look, and the record attached only when the prefab has an `AircraftDataPoint` |
| PlotRoot.PointsForAttachRecords | Assets/Scripts/AircraftPlotRootController.cs:312-315 | a point's component holds its record iff the prefab has an `AircraftDataPoint`; otherwise the point has no record |
| PlotRoot.AircraftPlotRootController.UpdateAxisLabels | Assets/Scripts/AircraftPlotRootController.cs:552-587 | the captions become the three display names and ranges |
| PlotRoot.AircraftPlotRootController.RebuildAxisTicks | Assets/Scripts/AircraftPlotRootController.cs:444-476 | old ticks and labels are cleared; the ticks become the tick rows and the labels the same rows when there is a label prefab |
| PlotRoot.AircraftPlotRootController.CreateAxisTickWithLabel | Assets/Scripts/AircraftPlotRootController.cs:499-548 | one tick is appended if there is a tick prefab, and its label too if there is also a label prefab |
| PlotRoot.AircraftPlotRootController.SetMultiFilters | Assets/Scripts/AircraftPlotRootController.cs:413-423 | null lists become empty lists; the plot is rebuilt with the last mapping if one was recorded, and nothing else changes otherwise |
| PlotRoot.AircraftPlotRootController.ApplyFiltersAndRebuild | Assets/Scripts/AircraftPlotRootController.cs:425-429 | rebuilds with the last recorded mapping, and is a no-op without one |
| DataPoints.AircraftDataPoint.constructor | Assets/Scripts/AircraftDataPoint.cs:5-14 | a fresh point has no record, is not highlighted and keeps the prefab's scale and `pulseAmount` (whose initialiser, 0.15, is `DefaultPulseAmount`) |
| DataPoints.AircraftDataPoint.Start | Assets/Scripts/AircraftDataPoint.cs:17-21 | the base scale becomes the scale the plot assigned |
| DataPoints.AircraftDataPoint.SetHighlighted | Assets/Scripts/AircraftDataPoint.cs:42-51 | stores the flag; deselecting restores the base scale at once, selecting leaves the scale |
| DataPoints.AircraftDataPoint.Update | Assets/Scripts/AircraftDataPoint.cs:23-38 | unhighlighted, the scale is forced back to the base scale; highlighted, it is the base scale times `1 + wave · pulseAmount` |
| DataPointSelection.RowOffsetSymmetric | Assets/Scripts/DataPointSelector.cs:328-336 | card `i` and card `n - 1 - i` sit at opposite offsets |
| DataPointSelection.RowOffsetStep | Assets/Scripts/DataPointSelector.cs:328-336 | neighbouring cards are exactly `spacing` = 0.45 apart |
| DataPointSelection.RemoveFirst | Assets/Scripts/DataPointSelector.cs:263 | `List.Remove`: unchanged when absent, one shorter when present, and no new elements |
| DataPointSelection.RemoveFirstUndoesAppend | Assets/Scripts/DataPointSelector.cs:263-278 | removing a card just appended gives back the old list |
| DataPointSelection.MapUpdateThenRemove | Assets/Scripts/DataPointSelector.cs:262-277 | adding a new point's entry and removing it gives back the old dictionary |
| DataPointSelection.PairedRemoveFirst | Assets/Scripts/DataPointSelector.cs:262-263 | removing a point and, with `List.Remove`, its card keeps the list paired with the dictionary |
| DataPointSelection.PairedAppend | Assets/Scripts/DataPointSelector.cs:277-278 | adding a new point and appending its new card keeps the pairing |
| DataPointSelection.DataPointSelector.constructor | Assets/Scripts/DataPointSelector.cs:182-188 | no cards, and selection is disabled |
| DataPointSelection.DataPointSelector.EnableSelection | Assets/Scripts/DataPointSelector.cs:196-199 | selection becomes enabled |
| DataPointSelection.DataPointSelector.Update | Assets/Scripts/DataPointSelector.cs:201-236 | unless selection is enabled and a press began off UI on a point with a record, neither collection nor the point's highlight or scale changes; otherwise the point is toggled with `ToggleSelection`'s outcome on both collections and on its scale; the point's record and base scale are never changed |
| DataPointSelection.DataPointSelector.HandleRay | Assets/Scripts/DataPointSelector.cs:238-248 | a hit point with a record is toggled, closing its card (scale back to its base scale) or appending a new one (scale unchanged) as `ToggleSelection` does; a miss or a point without a record leaves both collections and the point's highlight and scale alone |
| DataPointSelection.DataPointSelector.ToggleSelection | Assets/Scripts/DataPointSelector.cs:254-282 | a point with a card loses its highlight, its entry and its card, and is put back to its base scale; any other point is highlighted with its scale unchanged, and gets a fresh card for its record at the end of the row if a card can be made; the pairing and layout are kept |
| DataPointSelection.DataPointSelector.CloseCard | Assets/Scripts/DataPointSelector.cs:257-267 | the point is unhighlighted and put back to its base scale (`SetHighlighted(false)`), its entry removed and its card removed from the list |
| DataPointSelection.DataPointSelector.Forget | Assets/Scripts/DataPointSelector.cs:262-263 | both collections lose the point and its card, and stay paired |
| DataPointSelection.DataPointSelector.OpenCard | Assets/Scripts/DataPointSelector.cs:273-281 | the point is highlighted and keeps its scale; without a card both collections are unchanged, with one it is appended and mapped |
| DataPointSelection.DataPointSelector.AddCard | Assets/Scripts/DataPointSelector.cs:274-281 | a card that can be made joins the dictionary and the end of the list, and the row is laid out again |
| DataPointSelection.DataPointSelector.Remember | Assets/Scripts/DataPointSelector.cs:277-278 | the new point and card join both collections, at the end of the list, and stay paired |
| DataPointSelection.DataPointSelector.CreateCard | Assets/Scripts/DataPointSelector.cs:288-309 | null exactly when the prefab or its card component is missing; otherwise a fresh card showing the point's record |
| DataPointSelection.DataPointSelector.RepositionCards | Assets/Scripts/DataPointSelector.cs:315-350 | card `i` of `n` gets the offset `spacing · i - spacing · (n - 1) / 2` |
| DataPointSelection.DataPointSelector.OnDisable | Assets/Scripts/DataPointSelector.cs:352-369 | every selected point is unhighlighted and back at its base scale, with its record and base scale kept; both collections end empty; the selection gate is untouched |
| DataPointSelection.DataPointSelector.ToggleTwice | Assets/Scripts/DataPointSelector.cs:254-282 | selecting a point and deselecting it again restores both collections and leaves the point unhighlighted at its base scale |
| ModelDragging.GestureFlag.constructor | Assets/Scripts/AircraftModelDragger.cs:29 | the shared gesture flag starts down |
| ModelDragging.DragStartsOnce | Assets/Scripts/AircraftModelDragger.cs:100-108 | the drag starts iff held ≥ `longPressTime` or moved ≥ `dragStartPixels`; once started it is not begun again; starting raises the gesture flag and stops any pinch |
| ModelDragging.TouchPressStartsOnHit | Assets/Scripts/AircraftModelDragger.cs:138-150 | a touch press starts only on a hit when none is in progress, tracking that finger with no drag and no multi-touch |
| ModelDragging.MousePressStartsOnHit | Assets/Scripts/AircraftModelDragger.cs:83-94 | a mouse press starts only on a hit when none is in progress, with no drag |
| ModelDragging.EndPressIdles | Assets/Scripts/AircraftModelDragger.cs:308-316 | ending a press always resets every press field and lowers the gesture flag |
| ModelDragging.EndPressDeletesIffTap | Assets/Scripts/AircraftModelDragger.cs:291-302 | the model is destroyed iff no drag, no multi-touch, tap-to-delete on, time ≤ `tapMaxTime` and movement ≤ `tapMaxMovement` |
| ModelDragging.DragOrMultiTouchKeepsModel | Assets/Scripts/AircraftModelDragger.cs:291-296 | a press that dragged or saw a second finger never deletes the model |
| ModelDragging.MouseTapDeletes | Assets/Scripts/AircraftModelDragger.cs:116-119 | the mouse path applies the same tap test, so a short still click deletes the model |
| ModelDragging.MultiTouchFrameKeepsModel | Assets/Scripts/AircraftModelDragger.cs:130-182 | a frame with two or more fingers during a press cannot delete the model |
| ModelDragging.TouchStepKeepsModel | Assets/Scripts/AircraftModelDragger.cs:135-182 | one touch of a press marked multi-touch keeps the model, and any press still running is the marked one or was begun by this touch |
| ModelDragging.MarkedFoldKeepsModel | Assets/Scripts/AircraftModelDragger.cs:135-182 | the same holds over all the touches of the frame |
| ModelDragging.PinchPairFinds | Assets/Scripts/AircraftModelDragger.cs:236-246 | the primary touch is the last touch of the drag finger, the secondary the first of any other finger; each is missing only when no such touch exists |
| ModelDragging.PinchNeedsTwoFingers | Assets/Scripts/AircraftModelDragger.cs:230-252 | with fewer than two touches or a missing primary or secondary touch, the pinch stops and nothing else changes |
| ModelDragging.PinchBaselineChangesNothing | Assets/Scripts/AircraftModelDragger.cs:260-268 | the first pinch frame only records the baseline scale and yaw |
| ModelDragging.PinchFollowsFingers | Assets/Scripts/AircraftModelDragger.cs:270-280 | later frames set the rotation to a pure yaw (pitch and roll 0) = baseline yaw + change in twist angle; scale = baseline scale × distance ratio when the baseline exceeds one pixel, and unchanged otherwise |
| ModelDragging.PinchAtBaselineHolds | Assets/Scripts/AircraftModelDragger.cs:270-280 | fingers back at the baseline restore the baseline yaw always, and the baseline scale for a baseline over one pixel; over a shorter baseline the scale stays |
| ModelDragging.UpdateDragKeepsPress | Assets/Scripts/AircraftModelDragger.cs:212-226 | dragging moves the model only |
| ModelDragging.PinchKeepsPress | Assets/Scripts/AircraftModelDragger.cs:228-281 | pinching leaves the press alone and keeps the dragger consistent |
| ModelDragging.PinchWithKeepsPress | Assets/Scripts/AircraftModelDragger.cs:254-281 | once the pinch proper runs it is active and the press is untouched |
| ModelDragging.TouchStepConsistent | Assets/Scripts/AircraftModelDragger.cs:135-182 | every touch keeps the invariant: idle between presses, dragging iff a drag started, pinching only while dragging |
| ModelDragging.FoldConsistent | Assets/Scripts/AircraftModelDragger.cs:135-182 | any run of touches keeps the invariant |
| ModelDragging.TouchFrameConsistent | Assets/Scripts/AircraftModelDragger.cs:125-183 | a whole touch frame keeps the invariant |
| ModelDragging.MouseFrameConsistent | Assets/Scripts/AircraftModelDragger.cs:79-120 | a mouse frame keeps the invariant |
| ModelDragging.AircraftModelDragger.constructor | Assets/Scripts/AircraftModelDragger.cs:12-47 | the given Inspector settings (initialised to `DefaultDragSettings`: 0.35 s, 15 px, tap-delete on, 0.25 s, 10 px) and an idle, consistent state |
| ModelDragging.AircraftModelDragger.HandleMouse | Assets/Scripts/AircraftModelDragger.cs:79-120 | performs exactly one `MouseFrame` step |
| ModelDragging.AircraftModelDragger.HandleTouch | Assets/Scripts/AircraftModelDragger.cs:125-183 | performs exactly one `TouchFrame` step: the multi-touch mark, then every touch in order |
| ModelDragging.AircraftModelDragger.HandleTouchEvent | Assets/Scripts/AircraftModelDragger.cs:135-182 | performs exactly one `TouchStep` |
| ModelDragging.AircraftModelDragger.ContinuePress | Assets/Scripts/AircraftModelDragger.cs:160-169 | performs exactly the drag-start rule |
| ModelDragging.AircraftModelDragger.BeginDrag | Assets/Scripts/AircraftModelDragger.cs:198-210 | sets the drag flags and the gesture flag, detaches the model and stops the pinch |
| ModelDragging.AircraftModelDragger.UpdateDrag | Assets/Scripts/AircraftModelDragger.cs:212-226 | moves onto the AR plane pose if one is hit, else half a metre along the camera ray |
| ModelDragging.AircraftModelDragger.FindPinchPair | Assets/Scripts/AircraftModelDragger.cs:236-246 | the loop returns the `PinchPair` of the touches |
| ModelDragging.AircraftModelDragger.HandlePinchAndRotate | Assets/Scripts/AircraftModelDragger.cs:228-281 | performs exactly one `PinchStep` |
| ModelDragging.AircraftModelDragger.EndPress | Assets/Scripts/AircraftModelDragger.cs:289-317 | performs exactly `EndPressStep`: the tap test, then the reset |
| TapToPlace.UpdateKeepsCoherent | Assets/Scripts/TapToPlaceRoot.cs:47-99 | a frame keeps "instantiated once iff placed" and "armed iff a finger is tracked", and never removes a placed plot |
| TapToPlace.PlacedAtMostOnce | Assets/Scripts/TapToPlaceRoot.cs:102-108 | over any run of frames the plot is instantiated at most once, and once placed stays placed |
| TapToPlace.NoTouchResetsHold | Assets/Scripts/TapToPlaceRoot.cs:50-56 | a frame without touches forgets the candidate and changes nothing else |
| TapToPlace.SecondFingerCancelsHold | Assets/Scripts/TapToPlaceRoot.cs:59-66 | two fingers over a placed plot cancel the candidate |
| TapToPlace.TouchOverUIIgnored | Assets/Scripts/TapToPlaceRoot.cs:75-80 | a touch beginning over UI changes nothing |
| TapToPlace.BeganArmsAndPlacesOnce | Assets/Scripts/TapToPlaceRoot.cs:102-115 | a begun touch arms the candidate for its finger, time and position; it places only when nothing is placed, there is a prefab and a plane is hit, at the plane's position |
| TapToPlace.HoldIgnoredUnlessTracked | Assets/Scripts/TapToPlaceRoot.cs:119-123 | a hold with no candidate, another finger or nothing placed does nothing |
| TapToPlace.LongPressMovesPlot | Assets/Scripts/TapToPlaceRoot.cs:125-138 | moving beyond `maxTapMove` cancels; holding still for `longPressDuration` moves the plot onto the plane, keeping rotation and scale; earlier nothing moves |
| TapToPlace.OtherFingerEndKeepsHold | Assets/Scripts/TapToPlaceRoot.cs:141-148 | lifting the tracked finger clears the candidate, lifting any other changes nothing |
| TapToPlace.TwistFollowsFingers | Assets/Scripts/TapToPlaceRoot.cs:214-241 | after the baseline frame, the rotation is a pure yaw (pitch and roll 0) = baseline yaw + change in twist angle; scale = baseline scale × distance ratio for a baseline over 0.01 pixels, and unchanged otherwise; the position is kept |
| TapToPlace.TwistAtBaselineKeepsPlot | Assets/Scripts/TapToPlaceRoot.cs:214-241 | fingers that have not moved keep the plot's yaw, and its scale: by a ratio of one for a baseline over 0.01 pixels, by leaving it alone otherwise |
| TapToPlace.TapToPlaceRoot.constructor | Assets/Scripts/TapToPlaceRoot.cs:31-37 | the given Inspector settings (initialised to 2 s and 15 px), nothing placed, no candidate |
| TapToPlace.TapToPlaceRoot.Update | Assets/Scripts/TapToPlaceRoot.cs:47-99 | performs exactly one `UpdateStep` |
| TapToPlace.TapToPlaceRoot.HandleTouchBegan | Assets/Scripts/TapToPlaceRoot.cs:102-115 | performs exactly `BeganStep` |
| TapToPlace.TapToPlaceRoot.HandleTouchHold | Assets/Scripts/TapToPlaceRoot.cs:117-139 | performs exactly `HoldStep` |
| TapToPlace.TapToPlaceRoot.HandleTouchEnd | Assets/Scripts/TapToPlaceRoot.cs:141-148 | performs exactly `EndStep` |
| TapToPlace.TapToPlaceRoot.TryPlace | Assets/Scripts/TapToPlaceRoot.cs:152-174 | places at the hit pose with the prefab's scale only when nothing is placed, then schedules selection and hides the scanning visuals |
| TapToPlace.TapToPlaceRoot.MoveRootTo | Assets/Scripts/TapToPlaceRoot.cs:198-210 | moves a placed plot to the hit position, keeping rotation and scale |
| TapToPlace.TapToPlaceRoot.HandleTwoFingerGesture | Assets/Scripts/TapToPlaceRoot.cs:214-241 | performs exactly `TwoFingerStep` |
| FilterSelection.SelectedLabelsBound | Assets/Scripts/MultiFilterSelector.cs:73-85 | there are never more labels than toggles |
| FilterSelection.SelectedLabelsFromOnToggles | Assets/Scripts/MultiFilterSelector.cs:73-85 | every selected label is the label of a non-null toggle that is on |
| FilterSelection.OnTogglesSelected | Assets/Scripts/MultiFilterSelector.cs:73-85 | the label of every non-null toggle that is on is selected |
| FilterSelection.AllOffSelectsNothing | Assets/Scripts/MultiFilterSelector.cs:73-85 | with every toggle off nothing is selected |
| FilterSelection.GroupOffSelectsNothing | Assets/Scripts/MultiFilterSelector.cs:41-49 | a group turned all off, or a null group, selects nothing |
| FilterSelection.MultiFilterSelector.constructor | Assets/Scripts/MultiFilterSelector.cs:8-17 | the three groups and the controller instance, with no controller taken yet |
| FilterSelection.MultiFilterSelector.Start | Assets/Scripts/MultiFilterSelector.cs:19-39 | takes the instance, turns every toggle off and applies, so the controller ends with no filters and its scene is rebuilt with the last mapping (`Reapplied`) |
| FilterSelection.MultiFilterSelector.SetAllOff | Assets/Scripts/MultiFilterSelector.cs:41-49 | every non-null toggle of the group is off; a null group is ignored |
| FilterSelection.MultiFilterSelector.GetSelected | Assets/Scripts/MultiFilterSelector.cs:73-85 | the loop returns the labels of the toggles that are on, in array order; nothing for a null array |
| FilterSelection.MultiFilterSelector.ApplyFilters | Assets/Scripts/MultiFilterSelector.cs:87-109 | looks the controller up if it has none; with one, it installs the three selections as allow-lists, keeps its mapping, and redraws the scene over them when a mapping was recorded (`Reapplied`); without one, nothing changes |
| FilterSelection.MultiFilterSelector.SendSelections | Assets/Scripts/MultiFilterSelector.cs:99-108 | the controller receives the three selections as they were, keeps its mapping, and its scene is redrawn over them when a mapping was recorded, left as it was otherwise |
| FilterSelection.MultiFilterSelector.ToggleChanged | Assets/Scripts/MultiFilterSelector.cs:59-63 | the listener of a registered toggle whose value changes: afterwards the controller's allow-lists are the current selections and its scene is rebuilt with the last mapping (`Reapplied`) |
| FilterSelection.MultiFilterSelector.ClearFilters | Assets/Scripts/MultiFilterSelector.cs:112-118 | all three groups end off, the controller receives three empty lists, and its scene is rebuilt with the last mapping over no filters (`Reapplied`; see `ClearedPlotShowsAll`) |
| PlotRoot.ClearedPlotShowsAll | Assets/Scripts/MultiFilterSelector.cs:111-118 | with no filters the plan is the plan for every record, and a built plot draws exactly the records positive on all three axes, in order — the full dataset |
| FilterSelection.MultiFilterSelector.SetAllGroupsOff | Assets/Scripts/MultiFilterSelector.cs:114-116 | all three groups end off and select nothing |

## Left out

- JSON loading (`LoadData`, `JsonArrayHelper`) is not modelled. It wraps Unity's `JsonUtility`, which is not visible. The controller starts from a given record list.
- Number formatting (`FormatAxisNumber`, both overloads, and `FormatRange`) is not modelled: it depends on .NET's culture-dependent formatting. Captions and tick labels carry the numeric value, not its text.
- `Mathf.Sin`, `Mathf.Atan2`, `Vector2.Distance` and camera rays are not computed. They enter as inputs: the `wave` parameter, the `twistAngle` and `distance` functions, and `rayPointAt`.
- Physics and AR raycasts, `EventSystem` UI tests and `Time.time` are inputs too.
- `float` rounding and overflow are not modelled; all arithmetic is exact over `real`.
- Quaternion rotations are kept as Euler angles. `transform.eulerAngles.y` is taken as stored, without Unity's normalisation to [0, 360).
- Instantiate and Destroy are not modelled as engine operations. Spawned points, ticks and labels are values. A destroyed model is a `destroyed` flag, and detaching from the card is a `detached` flag.
- Renderer materials and axis colours (`ApplyAxisColors`) are not modelled. Each point records which look it would get instead.
- The row's world position, billboarding (`LookAt`, `BillboardToCamera`, `AircraftDetailCard.LateUpdate`) and card rotation are not modelled. Only each card's horizontal offset is.
- `AircraftDetailCard` itself is not part of this model. Its close button calls a selector method the selector does not define, and card setup is reduced to remembering the record.
- DataPointSelection.DataPointSelector.ToggleSelection: the dictionary never holds a null card in this model, so the `existingCard != null` test is always true here.
- `HookToggles` is not modelled as listener registration. Its listener is modelled as `ToggleChanged`, which requires a toggle of the three groups whose value actually changes, as Unity fires `onValueChanged` only then.
- `FilterCategoryUI`, `FilterPanelController`, `PlotAttributeSelector` and `AutoRotate` are UI or animation wrappers and are not modelled.
- `Update`'s `#if UNITY_EDITOR` choice between the mouse and the touch path is not modelled. Both paths are modelled as separate methods.
- `EnableSelectionNextFrame` is a coroutine that waits a frame. It is modelled as a `selectionScheduled` flag, and `DisableScanningVisuals` as a `scanningHidden` flag.
- `OnDestroy` clearing the static `Instance` is not modelled. The instance the filter selector sees is a constructor argument.
- `Debug.Log` output is not modelled.
- DataPoints.AircraftDataPoint.Update: only the scale rule is stated. `pulseSpeed` enters through the `wave` input.

The comment at `Assets/Scripts/AircraftModelDragger.cs:118` says the editor does not use tap-to-delete. The code still applies the tap test on the mouse path, and the model follows the code (`ModelDragging.MouseTapDeletes`).
