# trading-vue-js (Vue 3 port): indicators, drawing-tool pins and DataCube tool events in Dafny

This project models the computational core of the trading-vue-js chart
library's Vue 3 port and proves properties of that model.

* **`RSIIndicator`** is a streaming relative-strength index. It is a class
  that takes candles one at a time. It emits nothing until it has more than
  `period` closes. The first value is seeded from simple averages of the first
  `period` price changes, and every later value is Wilder-smoothed. `calculate`
  resets the state and feeds a whole series (`rsi.dfy`).
* **`MatrixSeries`** is a pure pipeline. It builds a synthetic "matrix"
  candle series from a composite price and computes EMA, SMA, standard
  deviation, rolling windows and a support/resistance band. The option
  defaulting is modelled too (`series_transforms.dfy`, `matrix_series.dfy`).
* **`Pin`** is a drag handle of a drawing tool. It is a class whose mouse
  handlers change its state (`tracking`, `settled`, `dragging`) and its
  position. It emits `scroll-lock`, `object-selected` and `change-settings`
  notifications through its overlay component (`host.dfy`, `pin.dfy`).
* **The `tool` mixin** is modelled as the class `Tool`. It holds the pins,
  the collision functions, pin visibility and the drag anchor. Its mouse
  handlers show the pins, start a drag, forward a forced press to every pin
  and move all pins together (`tool.dfy`).
* **`DCEvents`** holds the DataCube's handlers for toolbar and drawing events:
  * the worker upload flag and `data_changed`;
  * `on_ids_changed`;
  * building the toolbar list (`init_toolbar_tools`, `register_tools`,
    `add_basic_drawing_tools`, `merge_presets`);
  * `build_tool`;
  * selection, the trash icon, `system_tool`, `tool-selected`;
  * `before_destroy`.

  The pure steps live in `toolbar.dfy`, `lists.dfy` and `strings.dfy`, and
  the class lives in `dc_events.dfy`.

The shared types are `Option`/`Result` (`wrappers.dfy`) and the candle and
line-point records (`candles.dfy`).

Reals stand for JavaScript numbers. Each object the source updates in place is
a `class` whose methods state the whole new state. Each loop becomes a method
proved equal to a recursive specification function. Properties are proved
about those functions: value ranges, round trips, counts of toolbar entries
per type, and invariants the handlers keep. One such invariant is "at most
one remove (trash) button".

## Model

| member | source | states |
|---|---|---|
| Candles.Closes | src/helpers/MatrixSeries.js:146 | one close per candle, in order |
| Rsi.AveragesOf | src/helpers/RSIIndicator.js:33-45 | the average gain and loss held after any price history are never negative |
| Rsi.SumsNonNegative | src/helpers/RSIIndicator.js:72-76 | the sums of gains and losses in the seeding loop are never negative |
| Rsi.SmoothNonNegative | src/helpers/RSIIndicator.js:40-41 | smoothing non-negative values keeps the average non-negative |
| Rsi.SmoothPositive | src/helpers/RSIIndicator.js:40-41 | smoothing a positive observation into a non-negative average gives a positive average |
| Rsi.RsiValueInRange | src/helpers/RSIIndicator.js:49-54 | for non-negative averages the index lies in [0, 100] and is 100 exactly when the average loss is 0 |
| Rsi.NoGainGivesZero | src/helpers/RSIIndicator.js:49-54 | no average gain against a positive average loss gives an index of 0 |
| Rsi.RsiSeriesInRange | src/helpers/RSIIndicator.js:103-121 | every value a cold `calculate` returns lies in [0, 100] |
| Rsi.NoLossesWhenNeverFalling | src/helpers/RSIIndicator.js:72-76 | over prices that never fall, the summed losses are 0 |
| Rsi.NeverFallingGivesHundred | src/helpers/RSIIndicator.js:33-54 | prices that never fall keep the average loss at 0 and the index at 100 |
| Rsi.FallingSums | src/helpers/RSIIndicator.js:72-76 | over prices that fall at every step, the summed gains are 0 and the summed losses positive |
| Rsi.AlwaysFallingGivesZero | src/helpers/RSIIndicator.js:33-54 | prices that fall at every step give average gain 0, a positive average loss and index 0 |
| Rsi.ConstantClosesGiveHundred | src/helpers/RSIIndicator.js:103-121 | if all closes are equal, every value `calculate` returns is 100 |
| Rsi.AveragesStep | src/helpers/RSIIndicator.js:33-45 | one more price moves the averages of the whole history by one Wilder step on its change |
| Rsi.RsiSeriesStep | src/helpers/RSIIndicator.js:113-118 | one more candle adds exactly one point (its time, the index of all prices so far) once more than `period` candles were seen, and none before |
| Rsi.SeriesAfterUpdate | src/helpers/RSIIndicator.js:113-118 | what one `update` adds to the collected points is the next stretch of the whole-series definition |
| Rsi.RSIIndicator.constructor | src/helpers/RSIIndicator.js:5-12 | no prices, no results, not initialized, and the calculator invariant holds |
| Rsi.RSIIndicator.WithDefaultPeriod | src/helpers/RSIIndicator.js:5 | the period defaults to 14 |
| Rsi.RSIIndicator.Update | src/helpers/RSIIndicator.js:19-60 | the close is appended; no point while at most `period` closes were seen; otherwise one point at the candle's time is appended to the results. Its value is the index of the averages of the whole history and lies in [0, 100]. Once seeded, the averages move by one Wilder step. The invariant is kept |
| Rsi.RSIIndicator.Advance | src/helpers/RSIIndicator.js:33-59 | the averages become the Wilder step on the newest change and equal the averages of the whole history; the point carries their index and is appended to the results |
| Rsi.RSIIndicator.Initialize | src/helpers/RSIIndicator.js:67-96 | the averages are the summed gains and losses of the first `period` changes divided by `period`, non-negative; the point carries their index and is appended; the calculator is initialized |
| Rsi.RSIIndicator.Calculate | src/helpers/RSIIndicator.js:103-121 | after the reset and feeding every candle, the result is the cold RSI series of the candles: `|candles| - period` points (none for short input), equal to the results kept, with the prices equal to the closes |
| SeriesTransforms.Window | src/helpers/MatrixSeries.js:109 | the slice ending at `i` has `period` elements, the k-th being `data[i - period + 1 + k]` |
| SeriesTransforms.EmaRecurrence | src/helpers/MatrixSeries.js:31-40 | the EMA keeps the length, starts at the first input and follows `r[i] = alpha * data[i] + (1 - alpha) * r[i-1]`; empty input gives one undefined value |
| SeriesTransforms.ComputeEma | src/helpers/MatrixSeries.js:31-40 | the loop computes the EMA specification |
| SeriesTransforms.ComputeSma | src/helpers/MatrixSeries.js:48-66 | same length; `null` exactly before index `period - 1`; afterwards the mean of the window ending there |
| SeriesTransforms.WindowVariance | src/helpers/MatrixSeries.js:84-85 | the variance of a window is never negative |
| SeriesTransforms.ComputeStddev | src/helpers/MatrixSeries.js:74-91 | same length; 0 before index `period - 1`; never negative; equal to the square root of each window's variance |
| SeriesTransforms.ComputeRolling | src/helpers/MatrixSeries.js:100-114 | same length; `null` exactly before index `period - 1`; afterwards `fn` of the window ending there |
| SeriesTransforms.WindowMin | src/helpers/MatrixSeries.js:123 | `Math.min` of a window (`null` read as 0) is at most every element and is one of them |
| SeriesTransforms.WindowMax | src/helpers/MatrixSeries.js:133 | `Math.max` of a window is at least every element and is one of them |
| SeriesTransforms.RollingMinAtMostMax | src/helpers/MatrixSeries.js:122-134 | rolling minimum and maximum have the input's length, are undefined at the same indices, and the minimum never exceeds the maximum |
| SeriesTransforms.ComputeRollingMin | src/helpers/MatrixSeries.js:122-124 | the loop computes the rolling minimum |
| SeriesTransforms.ComputeRollingMax | src/helpers/MatrixSeries.js:132-134 | the loop computes the rolling maximum |
| MatrixSeries.NewConfig | src/helpers/MatrixSeries.js:6-16 | each option given and non-zero is taken. Each absent or zero option gets its own default: 5, 50, 100, 16, 200, -200 and 0.05. `showObOs` is on only when given `true`, and `dynamic` is always on |
| MatrixSeries.Composites | src/helpers/MatrixSeries.js:149 | one composite price per candle |
| MatrixSeries.TrendStrength | src/helpers/MatrixSeries.js:170-173 | the strength lies in [-2, 2], is positive exactly when up > down and negative exactly when up < down, and is 0 when both are 0 |
| MatrixSeries.SyntheticCandle | src/helpers/MatrixSeries.js:176-198 | the candle is well formed and its body spans `up` and `down`. Its range is 1.2 times the body. It rises exactly in an uptrend, which needs up > down, and its colour follows its direction |
| MatrixSeries.Normalized | src/helpers/MatrixSeries.js:156-163 | one normalized difference per composite price |
| MatrixSeries.Band | src/helpers/MatrixSeries.js:232-241 | support and resistance are both defined exactly when max and min are; their distance is `(2p/100 - 1)` times the range; for p >= 50 support <= resistance |
| MatrixSeries.SupportResistance | src/helpers/MatrixSeries.js:228-241 | both lines keep the length, are `null` exactly before `period - 1`, are the band of the rolling max and min there, and are ordered for p >= 50 |
| MatrixSeries.UpDown | src/helpers/MatrixSeries.js:152-167 | the `up` and `down` series have one value per candle |
| MatrixSeries.TrendCandles | src/helpers/MatrixSeries.js:189-198 | one synthetic candle per input candle, at its time |
| MatrixSeries.TimedLine | src/helpers/MatrixSeries.js:201-210 | one line point per candle, at its time, carrying the given value |
| MatrixSeries.Calculate | src/helpers/MatrixSeries.js:141-253 | matrix, up and down lines have one element per candle, at its time. Every matrix candle is well formed and rises exactly in an uptrend, which has up > down and the up colour. The support/resistance lines are the band of the oscillator when `dynamic`, else empty. `ob`/`os` are passed through |
| MatrixSeries.Deviations | src/helpers/MatrixSeries.js:216 | each element minus the mean, in order |
| MatrixSeries.SumOfDeviations | src/helpers/MatrixSeries.js:216-217 | the deviations from `m` sum to the sum minus `n * m` |
| MatrixSeries.DeviationsFromMean | src/helpers/MatrixSeries.js:215-217 | the deviations from the window's own mean sum to 0 |
| MatrixSeries.OscWindowIsZero | src/helpers/MatrixSeries.js:214-225 | the oscillator of every window is 0 |
| MatrixSeries.OscIsZero | src/helpers/MatrixSeries.js:214-225 | the oscillator is `null` before `pricePeriod - 1` and 0 from there on |
| MatrixSeries.ZeroWindowExtremes | src/helpers/MatrixSeries.js:228-229 | a window of `null`s and zeros has minimum and maximum 0 |
| MatrixSeries.FlatBand | src/helpers/MatrixSeries.js:228-241 | over such an oscillator both lines are 0 wherever defined |
| MatrixSeries.SupportResistanceAreZero | src/helpers/MatrixSeries.js:212-249 | `calculate`'s support and resistance lines are 0 wherever defined, for every input |
| Pins.HitRadii | src/components/primitives/pin.js:11-17 | the configured radius, or 5.5; 2 more on mobile; the squared hit radius is `(r + 7)^2`, times 2.5 on mobile, computed from the un-grown radius |
| Pins.HoverWithinHitRadius | src/components/primitives/pin.js:233-240 | `hover()` is a strict hit circle of radius `d` (`RADIUS_SQ == d * d`). A hovering mouse is closer than `d` to the pin along each axis, and a mouse whose axis distances sum to less than `d` hovers |
| Pins.AfterMove | src/components/primitives/pin.js:179-190 | a settled pin is unchanged; a tracking or dragging pin is marked moved and placed at the cursor |
| Pins.AfterPress | src/components/primitives/pin.js:192-209 | a tracking pin settles; a visible settled pin under the mouse starts dragging and is marked not moved; nothing else changes |
| Pins.AfterRelease | src/components/primitives/pin.js:215-223 | a dragging pin settles; any other is unchanged |
| Pins.ScrollLockFollowsState | src/components/primitives/pin.js:179-223 | each mouse handler sends `scroll-lock(true)` exactly when the pin leaves `settled` and `scroll-lock(false)` exactly when it enters it |
| Pins.DragCycle | src/components/primitives/pin.js:179-223 | press, move and release of a visible settled pin under the mouse leave it settled at the cursor, with exactly the expected notifications |
| Pins.Pin.constructor | src/components/primitives/pin.js:9-50 | the radii as above; a finished tool's pin with a saved position is settled there; otherwise it follows the cursor and announces it. An unsettled pin locks scrolling |
| Pins.Pin.Update | src/components/primitives/pin.js:127-151 | the pin moves to the cursor (missing fields as 0) and announces its position |
| Pins.Pin.UpdateFrom | src/components/primitives/pin.js:153-172 | no data changes nothing; data places the pin there, announced only when asked |
| Pins.Pin.ReInit | src/components/primitives/pin.js:86-90 | a saved position is taken back silently; otherwise nothing changes |
| Pins.Pin.RecPosition | src/components/primitives/pin.js:174-177 | the drag origin becomes the current position |
| Pins.Pin.MouseMove | src/components/primitives/pin.js:179-190 | the pin takes the move transition and sends its notifications |
| Pins.Pin.MouseDown | src/components/primitives/pin.js:192-213 | a prevented, unforced event changes nothing. Otherwise the press transition and its notifications happen. The default is prevented exactly when the mouse is over the pin and it is not a hidden settled pin |
| Pins.Pin.MouseUp | src/components/primitives/pin.js:215-223 | the release transition and its notifications |
| Pins.Pin.On | src/components/primitives/pin.js:225-231 | only a `settled` handler is recorded |
| Tools.DragTarget | src/mixins/tool.js:108-113 | the target keeps the pin's offset from its drag origin equal to the cursor's offset from the anchor |
| Tools.DragKeepsOffsets | src/mixins/tool.js:108-114 | dragging keeps the distances between pins, and a cursor at the anchor puts every pin back at its origin |
| Tools.DraggedEvents | src/mixins/tool.js:111-113 | one `change-settings` per pin, with its drag target, in pin order |
| Tools.PressedEventsIgnoreRecording | src/mixins/tool.js:102-107 | recording the drag origin does not change what pressing the pins sends |
| Tools.Tool.InitTool | src/mixins/tool.js:9-72 | no collisions, no pins, pins hidden, no drag |
| Tools.Tool.AttachPin | src/mixins/tool.js:13 | a pin of the same overlay joins the end of the `pins` list that `init_tool` creates empty, and nothing else changes. This stands for the concrete tools' own `this.pins.push(...)`, whose files are not part of this model |
| Tools.Tool.RenderPins | src/mixins/tool.js:73-77 | all pins are drawn exactly when the tool is selected or its pins are shown, else none |
| Tools.Tool.SetState | src/mixins/tool.js:78-82 | one `change-settings` with the new `$state` |
| Tools.Tool.PreDraw | src/mixins/tool.js:93-98 | the collisions are cleared and nothing else changes |
| Tools.Tool.RemoveTool | src/mixins/tool.js:99-101 | `remove-tool` is sent exactly when the tool is selected |
| Tools.Tool.OnKey | src/mixins/tool.js:63-65 | Delete and Backspace remove a selected tool; other keys do nothing |
| Tools.Tool.StartDrag | src/mixins/tool.js:102-107 | scrolling is locked, the anchor is the cursor, and every pin records its origin |
| Tools.Tool.DragUpdate | src/mixins/tool.js:108-114 | every pin moves to its drag target and announces it, in pin order |
| Tools.Tool.PressPin | src/mixins/tool.js:53 | one forced press of one pin |
| Tools.Tool.PressEach | src/mixins/tool.js:53 | every pin takes its press transition, and their notifications follow in pin order |
| Tools.Tool.PressAt | src/mixins/tool.js:53 | one step of the forced-press loop keeps the loop's account of pressed and unpressed pins |
| Tools.Tool.MouseMove | src/mixins/tool.js:31-40 | pins are shown exactly when some collision accepts the mouse; a drag in progress moves them, otherwise nothing else changes |
| Tools.Tool.TakeHold | src/mixins/tool.js:51-53 | drag started at the cursor, each pin pressed from its recorded origin; scroll lock then the pins' notifications |
| Tools.Tool.MouseDown | src/mixins/tool.js:42-55 | the default is prevented exactly for an unhandled press some collision accepts. Such a press selects an unselected tool, starts the drag and presses every pin. Any other event changes nothing, whatever the cursor holds |
| Tools.Tool.SelectAndHold | src/mixins/tool.js:48-53 | `object-selected` only when not yet selected, then the drag as above |
| Tools.Tool.MouseUp | src/mixins/tool.js:57-61 | the drag ends and scrolling is unlocked |
| Tools.Tool.ReInitPins | src/mixins/tool.js:87 | each pin with a saved position goes back to it, the others stay, silently |
| Tools.Tool.WatchUuid | src/mixins/tool.js:83-92 | a changed `$uuid` re-inits the pins and clears collisions, visibility and drag; an unchanged one changes nothing |
| Lists.Filter | src/helpers/dc_events.js:844-849 | the kept elements all pass and come from the input, and every passing element is kept |
| Lists.FilterIdempotent | src/helpers/dc_events.js:800-802 | filtering a filtered list again changes nothing |
| Lists.FilterKeepsAll | src/helpers/dc_events.js:844-849 | when every element passes, the list is kept whole |
| Strings.Split | src/helpers/dc_events.js:71 | at least one piece, none containing a colon |
| Strings.JoinSplit | src/helpers/dc_events.js:71 | joining the pieces with colons gives the string back |
| Strings.IndexOfColon | src/helpers/dc_events.js:586 | the first colon's position, or -1 exactly when there is none |
| Strings.SplitHead | src/helpers/dc_events.js:587 | the first piece is what precedes the first colon; no colon gives the string itself |
| Strings.BaseType | src/helpers/dc_events.js:639 | with a colon past position 0, the non-empty part before it; otherwise the type itself |
| Toolbar.Push | src/helpers/dc_events.js:158 | appends the entry: its type is counted once more, all others as before |
| Toolbar.PushNew | src/helpers/dc_events.js:245-247 | appends only an entry whose type is not listed yet, so that type then occurs once |
| Toolbar.AddBasicLine | src/helpers/dc_events.js:275-282 | a line type with an icon that is not listed yet is added once; other counts unchanged |
| Toolbar.WithBasicDrawingTools | src/helpers/dc_events.js:273-305 | the list is extended by exactly the basic line types that have an icon and are missing |
| Toolbar.AddMissing | src/helpers/dc_events.js:156-160 | a given type not yet listed then occurs once; every other count is unchanged |
| Toolbar.FallbackOccurrences | src/helpers/dc_events.js:167-203 | the hand-made line entries add only line types |
| Toolbar.InitializedToolsExtend | src/helpers/dc_events.js:148-209 | initialization only appends to the toolbar |
| Toolbar.InitializedToolsListsGiven | src/helpers/dc_events.js:156-160 | every given tool's type is listed afterwards |
| Toolbar.InitializedToolsHaveSegment | src/helpers/dc_events.js:163-203 | with a segment icon, a segment tool is always listed afterwards |
| Toolbar.InitializedToolsOccurrences | src/helpers/dc_events.js:148-209 | for every non-line type: a newly given type occurs once, and every other count is unchanged |
| Toolbar.InitializedToolsKeepTrash | src/helpers/dc_events.js:148-209 | initialization keeps "at most one remove button" |
| Toolbar.Assign | src/helpers/dc_events.js:237 | `Object.assign`: the source's keys win, the target's others stay |
| Toolbar.MergePresets | src/helpers/dc_events.js:431-440 | no preset changes nothing. A preset's `settings` merge key by key into the prototype's, and this throws exactly when the prototype has none. Every other preset key overwrites the prototype's |
| Toolbar.PresetsOf | src/helpers/dc_events.js:215-219 | every listed type has a preset, each stored without its type; the last entry's preset is that entry |
| Toolbar.WithPresets | src/helpers/dc_events.js:240-241 | merging both presets keeps the prototype's type |
| Toolbar.Variant | src/helpers/dc_events.js:252-254 | a mod is typed `use_for:mod` |
| Toolbar.AddVariants | src/helpers/dc_events.js:250-263 | unless a merge throws, only appends, and each mod type not yet listed then occurs once |
| Toolbar.Prototype | src/helpers/dc_events.js:237-242 | the prototype is typed `use_for:type` (type defaulting to `Default`) and has no `mods` |
| Toolbar.RegisterOne | src/helpers/dc_events.js:231-264 | a tool without `info` is skipped; otherwise each of its types not yet listed then occurs once |
| Toolbar.RegisterAll | src/helpers/dc_events.js:231-264 | unless a merge throws, each type any tool produces that is not yet listed then occurs once |
| Toolbar.PushVariants | src/helpers/dc_events.js:250-263 | the mods loop computes the variants specification, stopping at the first thrown error |
| Toolbar.CollectPresets | src/helpers/dc_events.js:215-219 | the loop builds the preset table |
| Toolbar.RegisterEach | src/helpers/dc_events.js:231-264 | the tools loop computes the registration specification, stopping at the first thrown error |
| Toolbar.RegisteredToolbar | src/helpers/dc_events.js:212-270 | a completed registration starts with the cursor and lists no type twice. It lists exactly the cursor, the basic line tools with an icon and the types the tools produce |
| Toolbar.WithTrashIcon | src/helpers/dc_events.js:787-795 | the remove button is listed afterwards and added only when missing; other counts unchanged |
| Toolbar.TrashIconIdempotent | src/helpers/dc_events.js:787-795 | adding the remove button twice is adding it once |
| Toolbar.WithoutTrashIcon | src/helpers/dc_events.js:797-803 | no remove button afterwards; other counts unchanged |
| Toolbar.FilterKeepsOtherTypes | src/helpers/dc_events.js:800-802 | the filter drops every remove button and keeps every other type's count |
| DataCubeEvents.MergeSetting | src/helpers/dc_events.js:770-772 | only the matching overlays get the new setting, and nothing else changes |
| DataCubeEvents.Delete | src/helpers/dc_events.js:741 | no matching overlay is left, and every other one stays |
| DataCubeEvents.RemovedIds | src/helpers/dc_events.js:139-140 | exactly the defined previous ids no longer present |
| DataCubeEvents.MarkLoading | src/helpers/dc_events.js:417-422 | only script overlays get the loading flag, and nothing else changes |
| DataCubeEvents.MarkEach | src/helpers/dc_events.js:419-421 | the loop computes the marking specification |
| DataCubeEvents.Normalised | src/helpers/dc_events.js:575-581 | `LineTool:X` becomes `X` for the three line types, and any other type is kept |
| DataCubeEvents.Lookup | src/helpers/dc_events.js:583 | a found entry is the first entry of that type in the list; none found means no entry has it |
| DataCubeEvents.LookupFinds | src/helpers/dc_events.js:583 | `find` by type fails exactly when the type is not listed |
| DataCubeEvents.ResolvePrototype | src/helpers/dc_events.js:583-621 | there is no prototype exactly for a type that is not a line type and is listed neither by itself nor by its base type. A hand-made one belongs to an unlisted line type |
| DataCubeEvents.FinalType | src/helpers/dc_events.js:639-663 | every line drawing is placed as `LineTool`, anything else as its base type |
| DataCubeEvents.WithDefaults | src/helpers/dc_events.js:625-629 | own settings kept, with `legend: false` and `z-index: 100` added only when missing |
| DataCubeEvents.LineFlags | src/helpers/dc_events.js:650-660 | `extended` for Extended types, else `ray` for Ray types, never both |
| DataCubeEvents.BuildSettings | src/helpers/dc_events.js:625-660 | selected, state `wip`, the type remembered, and for line drawings the `ray`/`extended` flags |
| DataCubeEvents.BuildSettingsDefaults | src/helpers/dc_events.js:628-629 | `legend` and `z-index` are kept from the prototype or default to false and 100 |
| DataCubeEvents.BuildSettingsKeep | src/helpers/dc_events.js:625 | every other prototype setting keeps its value |
| DataCubeEvents.NewToolOverlay | src/helpers/dc_events.js:707-716 | the new overlay has the DataCube id, the `$uuid` `id-time`, the final type and the grid |
| DataCubeEvents.RemoveSelected | src/helpers/dc_events.js:739-745 | the selected tool's overlays and the remove button are gone, drawing mode is off, the tool is the cursor and scrolling is unlocked |
| DataCubeEvents.DCEvents.constructor | src/helpers/dc_events.js:11-53 | no upload in flight and nothing sent yet |
| DataCubeEvents.DCEvents.OnWorkerEvent | src/helpers/dc_events.js:17-53 | `request-data` sends meta info and the upload only when none is in flight, then marks an upload in flight; `data-uploaded` clears the flag |
| DataCubeEvents.DCEvents.SetLoading | src/helpers/dc_events.js:417-422 | every script overlay on both sides gets the flag |
| DataCubeEvents.DCEvents.DataChanged | src/helpers/dc_events.js:405-415 | the data is uploaded and the scripts marked loading exactly when scripts are on, `data_change_exec` is not `false`, no upload is in flight and the engine runs scripts; otherwise nothing changes |
| DataCubeEvents.DCEvents.OnIdsChanged | src/helpers/dc_events.js:137-145 | `remove-scripts` with exactly the vanished ids, sent only when there are some |
| DataCubeEvents.DCEvents.DrawingModeOff | src/helpers/dc_events.js:551-555 | drawing mode off and the cursor as tool; nothing else changes |
| DataCubeEvents.DCEvents.OnScrollLock | src/helpers/dc_events.js:759-761 | only the scroll lock changes |
| DataCubeEvents.DCEvents.AddTrashIcon | src/helpers/dc_events.js:787-795 | the remove button is listed and "at most one" is kept |
| DataCubeEvents.DCEvents.RemoveTrashIcon | src/helpers/dc_events.js:797-803 | no remove button is left |
| DataCubeEvents.DCEvents.ObjectSelected | src/helpers/dc_events.js:764-785 | the previous selection is deselected and its remove button removed. With arguments, the third one is selected and the remove button listed again. "At most one" is kept |
| DataCubeEvents.DCEvents.SystemTool | src/helpers/dc_events.js:737-748 | `Remove` with a selection removes the selected tool; anything else changes nothing |
| DataCubeEvents.DCEvents.ToolSelected | src/helpers/dc_events.js:69-79 | no tool does nothing; `System:X` runs system tool X; any other becomes the tool, and the cursor also leaves drawing mode |
| DataCubeEvents.DCEvents.BeforeDestroy | src/helpers/dc_events.js:843-854 | only overlays that are finished or have no state remain, in order. Drawing mode is off, scrolling is unlocked and the selection is cleared, as `object_selected([])` does |
| DataCubeEvents.DCEvents.InitToolbarTools | src/helpers/dc_events.js:148-209 | the given tools are added under new types. The line tools are added by hand when no segment tool is listed. The cursor becomes the tool when there is none. "At most one remove button" is kept |
| DataCubeEvents.DCEvents.RegisterTools | src/helpers/dc_events.js:212-270 | completes exactly when no preset merge throws. On completion the toolbar is the registered list and the tool is the cursor; otherwise the toolbar is left empty. Either way at most one remove button |
| DataCubeEvents.DCEvents.BuildTool | src/helpers/dc_events.js:558-734 | no type, or an unknown one, changes nothing. Otherwise: the resolved prototype (a hand-made one joins the toolbar) is placed on its side, selected by its `$uuid`, drawing mode goes on and the remove button is listed |
| DataCubeEvents.DCEvents.PlaceTool | src/helpers/dc_events.js:614-616 | the second half of `build_tool` (also lines 707-730): prototype joins the toolbar if made by hand; the overlay is added on its side and selected; drawing mode on; the remove button listed |

## Left out

- `console.log`/`console.error` calls and canvas drawing (`Pin.draw`,
  `draw_circle`, `render_pins`' `draw` calls) are not modelled; `render_pins`
  is modelled as the choice of pins it would draw.
- Numbers are reals, not IEEE doubles: rounding, `NaN` and `Infinity` are
  not modelled. In particular `MatrixSeries.OscIsZero` holds exactly over
  reals, while in floating point the oscillator is only close to 0.
- `Math.sqrt` is a parameter `sqrt` of the matrix functions. The model
  assumes only that it returns a non-negative value for a non-negative input.
- Rsi.RSIIndicator: a period of 0 is excluded (`period >= 1`), since the
  calculator then divides by zero.
- MatrixSeries.Calculate requires a positive mean composite price on
  non-empty input. With a mean of 0 or less the safe standard deviation can
  be 0 and the division gives `Infinity`/`NaN`.
- MatrixSeries.Normalized: states only that there is one value per composite
  price, because the value itself is a real quotient with no further promise
  in the source.
- The mouse controller set-up (`setup_mouse`, the `mouse.on` registrations)
  and the `Keys` class are not modelled. The tool's and pins' handlers are
  methods called directly, and `OnKey` stands for the two key bindings.
- `Utils.is_mobile`, `Date.now()`/`Utils.now()` and the id `DataCube.add`
  returns are parameters (`mobile`, `stamp`, `id`).
- In `build_tool`, the default pin positions `p1`/`p2` computed from the
  chart layout (lines 671-705) and the copy of the prototype's `data` are
  not modelled.
- The overlay settings objects are values: the aliasing between a
  prototype's `settings` object and the objects `merge_presets` mutates in
  place is not modelled.
- `delete tool.type` in `register_tools` mutates the old toolbar entries.
  Only its effect on the preset table is modelled.
- A missing `data.tools` is modelled as an empty list. `require` of the
  icon file is assumed to succeed. The icons are a map parameter.
- The DataCube query language is abstracted: a query matches an overlay by
  its id or its `$uuid`, and ids are assumed unique.
- Pins.Pin.constructor: the fields `moved`, `t1` and `y$1`, which the
  source leaves `undefined` until a move or `rec_position`, start as `false`
  and `0.0`. A pin attached with `Tools.Tool.AttachPin` while a drag is in
  progress has never recorded its origin. In the source `drag_update` would
  give it `NaN` targets; here `Tools.Tool.DragUpdate` moves it to the
  cursor's displacement from the anchor, measured from `(0, 0)`.
- Tools.Tool.StartDrag: requires the cursor to carry a time and a value
  (`CursorPlaced`); the source would store `undefined` as the drag anchor.
- Tools.Tool.TakeHold: requires `CursorPlaced`, for the same reason.
- Tools.Tool.SelectAndHold: requires `CursorPlaced`, for the same reason.
- Tools.Tool.DragUpdate: requires `CursorPlaced`; the source would compute
  the pins' targets from `undefined`, which is `NaN`.
- Tools.Tool.MouseMove: requires `CursorPlaced` only while a drag is in
  progress, for the same reason; a move without a drag is modelled for every
  cursor.
- Tools.Tool.MouseDown: requires `CursorPlaced` only for a press that is not
  yet handled and that some collision accepts. A prevented or missed press
  is modelled for every cursor.
- The periods of MatrixSeries options are natural numbers. A negative or
  fractional period, which the source's `||` would pass through, is outside
  the model.
- Settings values are scalars (`Value` has no array or object case). The
  `$props` of a script overlay is an array in the source, truthy even when
  empty; here it is encoded as any truthy scalar.
- Web-worker transport (`ww.just`, `Dataset.make_tx`, `send_meta_2_ww`'s
  range and interval), controller hooks, `engine-state`, `overlay-data`,
  `overlay-update`, `modify-overlay` and `script-signal` events, and
  `ww.destroy` are not modelled. `DataCubeEvents.DCEvents.OnWorkerEvent`
  models only the upload flag and the messages it sends.
- `exec_script`, `exec_all_scripts`, `on_settings`, `scripts_onrange`,
  `grid_mousedown`, `change_settings`, `find_tool_by_type` and
  `get_overlay` are outside this model.
