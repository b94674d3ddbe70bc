# openmeters core, modelled in Dafny

openmeters is a PipeWire audio meter. It watches the PipeWire graph and links
the default sink into its own capture node. The captured audio is cut into
batches and fed to DSP processors (loudness, spectrogram, waveform). Their
snapshots drive visual states, which keep bounded histories and turn them
into render parameters.

This project models the sequential core of that pipeline and proves what each
part promises.

- **Registry and loopback bookkeeping** (`registry_types`, `registry_state`,
  `registry_legacy`, `pipewire_metadata`, `pipewire_graph`, `pw_loopback`):
  - node, port and device maps with a wrapping 64-bit change serial;
  - default-sink and default-source metadata, and their reconciliation with the known nodes;
  - metadata name parsing and port direction;
  - channel-based port pairing;
  - the loopback link set kept inside the links the channel pairing asks for, and equal to them when every link creation succeeds.
- **Sample batching and DSP** (`meter_tap`, `audio_util`, `loudness_dsp`,
  `spectrogram_dsp`, `waveform_dsp`):
  - the sample batcher;
  - interleaved histories, deques and mixdown;
  - the rolling mean-square window and per-channel peaks;
  - the spectrogram history deque, reassignment grid and finite differences;
  - the waveform min/max column ring and its snapshot.
- **Visual state** (`spectrogram_view`, `spectrum_view`, `stereometer_view`,
  `waveform_view`, `loudness_view`, `visual_manager`, `visualization`):
  - the spectrogram history ring and its addressing;
  - spectrum smoothing and peak labels;
  - stereometer trails;
  - the waveform tail;
  - loudness aggregation;
  - visual ordering;
  - channel projection.
- **Render helpers** (`render_common`, `render_spectrum`, `spectrogram_render`):
  - cache pruning and line decimation;
  - palette interpolation;
  - spectrogram uniforms, palette table, column buffer pool and column writes.
- **UI settings and small state machines** (`pane_grid`, `config`, `musical`,
  `settings_widgets`, `palette_editor`, `theme`, `settings_palette`,
  `settings_bar`, `settings_visuals`, `application_row`, `hardware_sink`).

How the source becomes Dafny:

- Every core source file becomes one module.
- State the source updates in place becomes a class:
  - each class has a `Valid()` invariant;
  - its methods state their new state through specification functions;
  - lemmas prove the promised properties of those functions.
- Pure helpers become functions.
- `f32` values are exact `real`s.
- The fixed-width integers `u32`, `u64` and `usize` are `nat`. Their wrap-around or saturation is written out where the source relies on it.
- A `HashMap` becomes a `map` and a `Vec` a `seq`. A fixed-size array stays an `array` where the source updates it in place.
- Transcendental functions are parameters:
  - `log10`, `log2`, `exp2` and `hypot`;
  - the FFT;
  - the JSON parser.
- The clock becomes a `now` parameter.

## Model

| member | source | states |
|---|---|---|
| ApplicationRows.FromNode | src/ui/application_row.rs:12-32 | the row keeps the node id and the enabled flag; its primary text is the non-blank application name, or else the display name; it has secondary text exactly when the display name differs from the primary text ignoring ASCII case, and that text is the display name |
| ApplicationRows.NoAppNameNoSecondary | src/ui/application_row.rs:12-32 | a node without an application name gets its display name as the primary text and no secondary text |
| ApplicationRows.DisplayLabel | src/ui/application_row.rs:34-39 | the label is the primary text alone, or the primary text followed by the secondary text in parentheses |
| ApplicationRows.DisplayLabelExtendsPrimary | src/ui/application_row.rs:34-39 | the label always begins with the primary text, and it is longer than that text exactly when there is secondary text |
| ApplicationRows.SortKey | src/ui/application_row.rs:41-48 | the key is the lower-cased primary text, the lower-cased secondary text (empty when there is none) and the node id |
| ApplicationRows.SortKeyIgnoresCase | src/ui/application_row.rs:41-48 | two rows of the same node whose texts differ only in ASCII case have equal sort keys |
| HardwareSink.Summary | src/ui/hardware_sink.rs:25 | with no default sink, the summary is "(none)" in both texts |
| HardwareSink.HardwareSinkCache.constructor | src/ui/hardware_sink.rs:10-18 | the cache starts with the detecting placeholder shown and nothing remembered |
| HardwareSink.HardwareSinkCache.Label | src/ui/hardware_sink.rs:20-22 | the label is the display text of the summary shown |
| HardwareSink.HardwareSinkCache.Update | src/ui/hardware_sink.rs:24-35 | a known sink is shown and remembered; a "(none)" summary shows the remembered sink when there is one and "(none)" otherwise; a remembered sink is never "(none)" and is always what is shown |
| MeterTap.FlattenConcat | src/audio/meter_tap.rs:117-136 | the samples of two runs of chunks joined are the samples of the first run followed by those of the second |
| MeterTap.FlattenSingle | src/audio/meter_tap.rs:124-127 | a single pending chunk is exactly the batch |
| MeterTap.SaturatingAddMin | src/audio/meter_tap.rs:108-111 | adding chunk lengths one at a time with saturation gives the whole sum capped at usize::MAX |
| MeterTap.SampleBatcher.constructor | src/audio/meter_tap.rs:101-106 | a new batcher has the given target, no chunks and a zero total |
| MeterTap.SampleBatcher.Push | src/audio/meter_tap.rs:108-111 | the chunk is queued after the earlier ones and the total grows by its length, saturating at usize::MAX |
| MeterTap.SampleBatcher.ShouldFlush | src/audio/meter_tap.rs:113-115 | a flush is due exactly when the pending samples number at least the target |
| MeterTap.SampleBatcher.Take | src/audio/meter_tap.rs:117-136 | nothing is returned exactly when no sample is pending; otherwise the batch is every pending sample in order (a lone chunk as it is) and the batcher is emptied |
| SettingsBar.ClampBarHeight | src/ui/settings/bar.rs:3-9 | the height lies in [24, 800]: a height inside is kept, one below becomes 24 and one above becomes 800 |
| SettingsBar.ClampBarHeightIdempotent | src/ui/settings/bar.rs:7-9 | clamping twice gives the same height as clamping once |
| SettingsBar.DefaultBarSettings | src/ui/settings/bar.rs:37-43 | the default bar is disabled, at the top, and at a height that the clamp keeps |
| SettingsVisuals.OutputChannels | src/ui/settings/visuals.rs:124-129 | Both passes every input channel through and every other mode yields exactly one channel |
| SettingsVisuals.AllMeterModesListed | src/ui/settings/visuals.rs:147-153 | MeterMode::ALL lists every meter mode, five of them, each once |
| SettingsVisuals.UnitLabel | src/ui/settings/visuals.rs:155-160 | the LUFS modes are labelled "LUFS" and the RMS and peak modes "dB" |
| Visualization.MonoBlend | src/ui/visualization.rs:40-52 | at each index, the mono value is the sum of the channels times one over the channel count |
| Visualization.ProjectChannelData | src/ui/visualization.rs:26-54 | Both keeps the data; Left takes the first channel; Right takes the second, or the first of mono data; Mono is the blend; a channel past the end of the data gives nothing |
| Visualization.ProjectedLength | src/ui/visualization.rs:26-54 | for data that holds every channel in full, the projection holds as many channels as output_channels gives, each `stride` samples long |
| Visualization.MonoOfIdenticalChannels | src/ui/visualization.rs:40-52 | when every channel agrees sample for sample, the mono blend is the first channel |
| Musical.TruncRem | src/util/audio/musical.rs:32-33 | Rust's `%` on i32 truncates: the remainder lies strictly between -12 and 12 and recombines with the truncated quotient to the dividend |
| Musical.NoteIndex | src/util/audio/musical.rs:32-33 | the note index is in 0..11 for every MIDI number, negative ones included, and is the number's residue modulo 12 |
| Musical.FromMidiAsWritten | src/util/audio/musical.rs:30-41 | as written: the note keeps the MIDI number, is named by the note index, and its octave is the truncated quotient by 12 minus one |
| Musical.FromMidi | src/util/audio/musical.rs:30-41 | corrected: the note keeps the MIDI number and is named by the note index, and 12 * (octave + 1) + note index is the MIDI number again, so every octave starts at C |
| Musical.FromMidiRoundTrip | src/util/audio/musical.rs:30-41 | the name and octave of the corrected note denote its MIDI number again |
| Musical.FromMidiAgreesFromZero | src/util/audio/musical.rs:30-41 | the code as written and the corrected definition agree on every MIDI number from 0 up |
| Musical.AsWrittenOctaveClash | src/util/audio/musical.rs:34 | as written, MIDI -1 and MIDI 11 are both named B-1, so the name of -1 denotes 11; the corrected octave of -1 is -2 |
| Musical.FromFrequency | src/util/audio/musical.rs:18-28 | nothing exactly for a non-positive frequency; otherwise the note of the rounded MIDI number 69 + 12 log2(f / 440), with the logarithm as a parameter |
| Musical.A440IsA4 | src/util/audio/musical.rs:18-28 | 440 Hz is MIDI 69, named A in octave 4 |
| Musical.BlackKeys | src/util/audio/musical.rs:47-49 | a note is black exactly at note indices 1, 3, 6, 8 and 10 (C#, D#, F#, G#, A#) |
| Musical.Format | src/util/audio/musical.rs:51-53 | the text is the note name followed by the decimal octave |
| Theme.WithAlpha | src/ui/theme.rs:421-426 | the colour channels are kept and the alpha is `alpha` clamped into [0, 1] |
| Theme.F32ToU8 | src/ui/theme.rs:462-464 | the byte is at most 255, 0 for input at or below 0 and 255 for input at or above 1 |
| Theme.F32ToU8Inverse | src/ui/theme.rs:462-464 | every byte n is recovered exactly from n / 255 |
| Theme.F32ToU8Monotone | src/ui/theme.rs:462-464 | quantisation never reverses the order of two channel values |
| Theme.PalettesEqualReflexiveSymmetric | src/ui/theme.rs:468-480 | the approximate palette comparison is reflexive and symmetric |
| Theme.Palette.constructor | src/ui/theme.rs:37-43 | a new palette holds its defaults and labels and no override |
| Theme.Palette.Colors | src/ui/theme.rs:46-52 | the colours in effect are the override, or the defaults when none is stored, and there are as many as defaults |
| Theme.Palette.Set | src/ui/theme.rs:65-70 | a palette of the right length is stored unless it approximately equals the defaults, and the colours in effect then approximately equal it; one of another length leaves the defaults in effect |
| Theme.Palette.Reset | src/ui/theme.rs:72-74 | the override is dropped |
| Theme.Palette.DefaultIffEmpty | src/ui/theme.rs:77-79 | the palette is at its default exactly when no override is stored |
| Theme.GradientSegment | src/ui/theme.rs:484-495 | the segment index is the floor of the clamped position times n - 1, capped at n - 2 |
| Theme.SampleGradient | src/ui/theme.rs:484-495 | the accent colour for an empty palette, the only stop of a one-stop palette, and otherwise a blend of two adjacent stops with a fraction in [0, 1]: the first stop at or below 0 and the last at or above 1 |
| Sorting.SortBy | src/ui/app/config.rs:630 | the result is a permutation of the input |
| Sorting.SortBySorted | src/ui/app/config.rs:630 | sorting by a total preorder gives a sorted permutation of the input |
| Sorting.KeyClass | src/ui/app/config.rs:630 | only elements with the given key, never more than the input holds |
| Sorting.InsertKeyClass | src/ui/app/config.rs:630 | inserting an element places it before every element with its key and leaves the others of that key in order |
| Sorting.SortByStable | src/ui/app/config.rs:630 | the sort is stable: for every key, the elements with that key appear in the same order as in the input |
| AudioUtil.PowerToDb | src/util/audio.rs:21-27 | the result never falls below the floor; silence gives the floor and otherwise the decibel value when it is above the floor |
| AudioUtil.Lerp | src/util/audio.rs:30-32 | t = 0 gives a, t = 1 gives b, and equal ends give that value |
| AudioUtil.MixdownFrames | src/util/audio.rs:34-56 | nothing for zero channels, the input itself for mono, else one average per whole frame with a trailing partial frame dropped |
| AudioUtil.MixdownIntoDeque | src/util/audio.rs:34-56 | the queue gets the mixed-down frames appended after its old contents |
| AudioUtil.MixdownUniform | src/util/audio.rs:34-56 | frames whose channels all carry v mix down to v |
| AudioUtil.CopyFromDeque | src/util/audio.rs:102-112 | the first min(destination, source) elements are copied in queue order, across the wrap point of the storage, and the rest of the destination is untouched |
| AudioUtil.WholeFrames | src/util/audio.rs:131-134 | `excess.div_ceil(channels) * channels` is a multiple of the channel count and the fewest whole frames covering the excess |
| AudioUtil.HistoryDrain | src/util/audio.rs:114-137 | the drop never exceeds the history; nothing is dropped when everything fits; unless the whole history goes, a whole number of frames is dropped, what remains fits, and one frame fewer would not |
| AudioUtil.ExtendedHistory | src/util/audio.rs:114-137 | empty for zero capacity or channels; never longer than the capacity; the newest `capacity` samples when the input alone fills it; otherwise a suffix of the old history, cut at a frame boundary unless all of it goes, followed by all of the input; old history and input unchanged when they fit |
| AudioUtil.ExtendInterleavedHistory | src/util/audio.rs:114-137 | the queue becomes the extended history |
| AudioUtil.InverseWindowSum | src/util/audio.rs:139-153 | the reciprocal of the window sum, or of the FFT size when the sum is within epsilon of zero, or zero for size zero |
| AudioUtil.FftBinNormalization | src/util/audio.rs:139-162 | one factor per bin of a real FFT (size / 2 + 1); the DC and Nyquist bins get the squared inverse window sum and the others four times that; all are non-negative |
| PaneGrid.Position | src/ui/pane_grid/state.rs:95-97 | a position is found exactly when the pane is in the order; it points at that pane, and no earlier index holds it |
| PaneGrid.MovePermutes | src/ui/pane_grid/state.rs:72-82 | taking a pane out and putting it back at another index keeps the same panes, and the moved pane lands at the target index |
| PaneGrid.InsertFresh | src/ui/pane_grid/state.rs:60-69 | inserting a pane with the next id anywhere keeps the order free of duplicates, the order and the map over the same panes, and every id below the counter |
| PaneGrid.State.constructor | src/ui/pane_grid/state.rs:9-30 | a new grid holds exactly the first pane with the initial value, and the next id is 1; it starts the invariant every method keeps: the order holds exactly the panes of the map, each once, all below the next id |
| PaneGrid.State.Len | src/ui/pane_grid/state.rs:33-35 | the length of the order is the number of panes in the map |
| PaneGrid.State.IsEmpty | src/ui/pane_grid/state.rs:38-40 | the grid is empty exactly when it holds no pane |
| PaneGrid.State.Get | src/ui/pane_grid/state.rs:43-45 | a value is returned exactly for a pane in the grid, and it is that pane's value |
| PaneGrid.State.Iter | src/ui/pane_grid/state.rs:53-57 | one entry per pane in visual order, each with that pane's value, and no pane twice |
| PaneGrid.State.InsertAfter | src/ui/pane_grid/state.rs:60-69 | nothing changes for a pane not in the grid; otherwise a pane with a never-used id is placed right after the given one, holds the value, and the id counter advances; the grid stays consistent |
| PaneGrid.State.MoveTo | src/ui/pane_grid/state.rs:72-82 | a move happens exactly when both panes are present and differ; then the first pane is taken out and reinserted at the second's old index; in every case the same panes remain |
| PaneGrid.State.ForEachMut | src/ui/pane_grid/state.rs:85-93 | the same panes remain, and each value becomes the function applied to its pane and old value |
| SettingsWidgets.Snap | src/ui/app/visuals/settings/widgets.rs:21-27 | the snapped value always lies within the range; a non-positive step only clamps |
| SettingsWidgets.SnapKeepsGridValues | src/ui/app/visuals/settings/widgets.rs:21-27 | a value on the step grid inside the range is left where it is |
| SettingsWidgets.SnapOnGrid | src/ui/app/visuals/settings/widgets.rs:21-27 | with a positive step the snapped value is a point of the step grid counted from the minimum (at a non-negative multiple) or the maximum, and a value inside the range moves by at most half a step |
| SettingsWidgets.RoundNear | src/ui/app/visuals/settings/widgets.rs:24 | f32::round lands within half a unit of its argument |
| SettingsWidgets.Setting.SetIfChanged | src/ui/app/visuals/settings/widgets.rs:31-38 | the new value is stored, and the change is reported exactly when it differs from the old one |
| SettingsWidgets.SetF32 | src/ui/app/visuals/settings/widgets.rs:41-48 | the new float is stored, and the change is reported exactly when it differs from the old one |
| SettingsWidgets.UpdateF32Range | src/ui/app/visuals/settings/widgets.rs:51-53 | the stored value is the snapped input, and the change is reported exactly when that differs from the old value |
| SettingsWidgets.RoundToUsize | src/ui/app/visuals/settings/widgets.rs:63 | a non-negative value is rounded to the nearest whole number; a value at or below -0.5 saturates to zero |
| SettingsWidgets.UpdateUsizeFromF32 | src/ui/app/visuals/settings/widgets.rs:56-64 | the stored count is the snapped input rounded, and the change is reported exactly when that differs from the old count |
| SettingsWidgets.UsizeWithinWholeBounds | src/ui/app/visuals/settings/widgets.rs:56-64 | with whole, non-negative bounds the stored count always lies within them |
| SettingsPalette.ToArray | src/ui/settings/palette.rs:76-78 | the stored colours are returned exactly when there are as many as the palette needs |
| SettingsPalette.ColorsDifferIsNotEqual | src/ui/settings/palette.rs:126-132 | colours count as changed exactly when the lengths agree and the palettes are not equal; a length mismatch never counts |
| SettingsPalette.IfDiffersFrom | src/ui/settings/palette.rs:80-87 | settings are produced exactly when the colours differ from the defaults, and they hold those colours and nothing else |
| SettingsPalette.StoredColorsRoundTrip | src/ui/settings/palette.rs:76-87 | colours stored because they differ come back unchanged from to_array for the palette's size |
| SettingsPalette.FromState | src/ui/settings/palette.rs:89-123 | nothing is stored exactly when colours, positions and spreads are all at their defaults; otherwise the colours are kept only if changed, the positions only if moved and the palette has more than two stops, the spreads only if some is not 1 |
| SettingsPalette.DefaultStateNotStored | src/ui/settings/palette.rs:89-123 | a palette at its default colours, uniform positions and unit spreads is not stored |
| PipewireMetadata.Announced | src/util/pipewire/metadata.rs:19-50 | the announced target carries the metadata id, no node for subject 0 and otherwise that node, and the given type hint and name |
| PipewireMetadata.DefaultTarget.constructor | src/util/pipewire/metadata.rs:8-16 | a new default target has every field unset |
| PipewireMetadata.DefaultTarget.Update | src/util/pipewire/metadata.rs:19-50 | afterwards the target equals the announcement, and a change is reported exactly when it differed before |
| PipewireMetadata.DefaultTarget.Clear | src/util/pipewire/metadata.rs:53-55 | the target is back to every field unset |
| PipewireMetadata.UpdateTwice | src/util/pipewire/metadata.rs:19-50 | applying the same announcement twice reports no change the second time, and the target equals the announcement |
| PipewireMetadata.JsonName | src/util/pipewire/metadata.rs:67-80 | an object gives its "name" field when that is text, a bare JSON string gives itself, anything else gives nothing |
| PipewireMetadata.ParseMetadataName | src/util/pipewire/metadata.rs:59-85 | a missing value names nothing; a value marked as JSON by its type or a leading brace gives the JSON name; plain text gives itself trimmed, or nothing when blank |
| PipewireMetadata.EmSpaceTrimmed | src/util/pipewire/metadata.rs:59-85 | a plain name led by an em space parses to the name without it, since trimming strips every Unicode white-space character |
| PipewireMetadata.PlainNameTrimmed | src/util/pipewire/metadata.rs:81-85 | a name taken from plain text never has surrounding whitespace |
| PipewireMetadata.ParseIgnoresPadding | src/audio/pw_registry/types.rs:122-136 | the registry's parse_metadata_name decides as this one does, and in both surrounding whitespace never changes the parsed name |
| PipewireMetadata.BlankNamesNothing | src/util/pipewire/metadata.rs:81-85 | blank text without a JSON type hint names nothing |
| Config.TruncateLabel | src/ui/app/config.rs:28-46 | the loop over the characters returns exactly the truncation defined on the whole text: nothing for a zero budget, the whole text when it fits, otherwise the first budget-minus-three characters, flagged as truncated |
| Config.TruncatedIsPrefix | src/ui/app/config.rs:28-46 | the kept text is a prefix of the label; for a non-zero budget it is flagged as truncated exactly when the label is longer than the budget, and then it is strictly shorter |
| Config.DeviceLabelFits | src/ui/app/config.rs:56-63 | a shown device label never exceeds the maximum length; a label that fits is shown whole, a longer one as its first characters followed by "..." |
| Config.IsCaptureCandidate | src/ui/app/config.rs:450-462 | a virtual node or an application's node is never a candidate; a candidate has "audio" in its media class or "monitor" in its name or description, ignoring ASCII case |
| Config.Candidates | src/ui/app/config.rs:427-431 | the candidates are exactly the snapshot's nodes that are capture candidates, never more of them than nodes |
| Config.OptionFor | src/ui/app/config.rs:434-446 | a node's option selects that node, shows its display name and always has a token: the node name, else the description, else the display name |
| Config.SortedCandidates | src/ui/app/config.rs:427-446 | the listed nodes are a permutation of the candidates, ordered by lower-cased display name, and the node options are built from them in that order |
| Config.NodeOptionsSorted | src/ui/app/config.rs:432 | the node options come in order of lower-cased display name |
| Config.NodeOptionsStable | src/ui/app/config.rs:432 | capture candidates with equal lower-cased display names keep their snapshot order among the options (sort_by is stable) |
| Config.NodeOptionsCoverCandidates | src/ui/app/config.rs:427-446 | every capture candidate of the snapshot has its option among the choices |
| Config.NodeOptionsFromCandidates | src/ui/app/config.rs:427-446 | every node option belongs to a capture candidate of the snapshot, selects a node and has a token |
| Config.BuildDeviceChoices | src/ui/app/config.rs:416-448 | the choices start with the default sink option and continue with exactly the sorted node options |
| Config.FindByToken | src/ui/app/config.rs:639-641 | the found choice is remembered by the token or labelled with it, and no earlier choice is; nothing is found only when no choice matches |
| Config.DeviceTokenFor | src/ui/app/config.rs:662-667 | a returned token belongs to a choice with that selection; a selection not offered has no token |
| Config.PendingMatch | src/ui/app/config.rs:634-641 | no match without a pending name; a match is a choice whose token or label is the pending name; no match means no choice carries it either way |
| Config.SelectionAfter | src/ui/app/config.rs:604-614 | the choice a pending name matches; otherwise the old selection while it is still offered, else the default sink; when the first choice is the default sink the result is always offered |
| Config.SinkLabel | src/ui/app/config.rs:591-602 | a known default sink is shown and remembered; a "(none)" summary shows the remembered sink and keeps it, or "(none)" when none is remembered; a remembered sink is always the label |
| Config.RowsFor | src/ui/app/config.rs:620-626 | one row per routed node, in order, each built from the node with its stored preference or on by default |
| Config.ApplicationRowsOf | src/ui/app/config.rs:604-632 | the application rows are sorted by sort key and are a permutation of the rows built from the routed nodes |
| Config.EveryRoutedNodeListed | src/ui/app/config.rs:620-632 | every node routed to the meter's sink has its row, enabled as its stored preference says, or enabled when none is stored |
| Config.SetRowEnabled | src/ui/app/config.rs:184-191 | rows keep their nodes and texts; rows of other nodes are unchanged; if the node has a row, a row of that node now has the new flag |
| Config.CollectRows | src/ui/app/config.rs:620-626 | the loop over the routed nodes collects exactly the rows defined for them and the set of their ids |
| Config.ConfigPage.constructor | src/ui/app/config.rs:125-164 | a new page knows no preferences, rows or choices, shows the detecting label, selects the default device, and takes the capture mode and the device to look for from the settings |
| Config.ConfigPage.Update | src/ui/app/config.rs:175-246 | each message has its effect and touches nothing else: a toggle stores the preference, updates the row and tells the router; visibility flips; a changed mode or device is stored, sent and saved, an unchanged one does nothing; a registry update marks the registry ready, sets the label by SinkLabel, rebuilds the choices, selects SelectionAfter and rebuilds rows and preferences, keeping the capture mode and visibility |
| Config.ConfigPage.OnRegistryUpdated | src/ui/app/config.rs:177-180 | the registry is ready; the label and remembered sink follow SinkLabel, the choices are rebuilt from the snapshot, the selection is SelectionAfter (a pending match is cleared and saved by token, otherwise pending and saved names are kept), and the rows and preferences follow the routed nodes |
| Config.ConfigPage.ToggleApplication | src/ui/app/config.rs:181-198 | the preference is stored, the node's row takes the flag, and one enable command for the node is sent |
| Config.ConfigPage.ChangeCaptureMode | src/ui/app/config.rs:209-215 | an unchanged mode sends and saves nothing; a new mode is stored, sent together with the selected device, and saved |
| Config.ConfigPage.ChangeCaptureDevice | src/ui/app/config.rs:216-224 | an unchanged selection sends and saves nothing; a new one is stored, sent after the capture mode, and saved as the token of its choice |
| Config.ConfigPage.DispatchCaptureState | src/ui/app/config.rs:653-660 | exactly two commands are sent, the capture mode and then the selected device |
| Config.ConfigPage.UpdateHardwareSinkLabel | src/ui/app/config.rs:591-602 | a known sink is shown and remembered; when the summary is "(none)" the last known sink is shown if there is one, else "(none)"; the result is SinkLabel of the snapshot and the old remembered sink |
| Config.ConfigPage.ResolvePendingDevice | src/ui/app/config.rs:634-649 | with no pending name nothing changes; a pending name matching no choice stays pending; a matching one selects the first match, is cleared, and the settings store that choice's token |
| Config.ConfigPage.ApplySnapshot | src/ui/app/config.rs:604-632 | the label and remembered sink follow SinkLabel; the choices are rebuilt and always offer the selection, which is SelectionAfter of the old one and the pending name (a match is cleared and saved by token); the rows are rebuilt sorted, and only preferences of routed nodes survive, unchanged |
| Config.ConfigPage.RefreshDevices | src/ui/app/config.rs:604-614 | the label and remembered sink follow SinkLabel; the choices are rebuilt from the snapshot and always offer the selection, which is SelectionAfter: the pending match, else the old selection while offered, else the default sink; a match is cleared and saved by token |
| Config.ConfigPage.ChooseDevice | src/ui/app/config.rs:606-613 | the selection becomes SelectionAfter of the choices, the old selection and the pending name, and is offered; a pending match is cleared and its token saved, otherwise pending and saved names are kept |
| Config.ConfigPage.RefreshApplications | src/ui/app/config.rs:617-631 | the rows are those of the routed nodes sorted by sort key, and only preferences of routed nodes survive, with their values |
| PaletteEditor.Toggle | src/ui/app/visuals/settings/palette.rs:110-113 | the colour ends up open exactly when it was not the open one; otherwise nothing is open |
| PaletteEditor.ToggleTwice | src/ui/app/visuals/settings/palette.rs:110-113 | opening the same colour twice, from nothing open or from that colour open, leaves the editor as it was |
| PaletteEditor.PositionUpdate | src/ui/app/visuals/settings/palette.rs:129-145 | a move is accepted only for an interior stop of a palette with at least three stops; the new position keeps the minimum gap to both neighbours, stays inside the margins, and differs from the old position by at least the change threshold; an end stop is always refused |
| PaletteEditor.PositionUpdateExact | src/ui/app/visuals/settings/palette.rs:134-144 | a requested position already inside the allowed band and far enough from the old one is taken unchanged |
| PaletteEditor.PositionUpdateKeepsOrder | src/ui/app/visuals/settings/palette.rs:129-145 | in increasing positions, an accepted move keeps them increasing |
| PaletteEditor.SpreadUpdate | src/ui/app/visuals/settings/palette.rs:146-156 | an accepted spread belongs to an existing stop, lies in [0.2, 5], differs from the old one by at least the change threshold, and equals the request when that is in range; a missing stop is refused |
| PaletteEditor.SpreadUpdateIdempotent | src/ui/app/visuals/settings/palette.rs:150-153 | asking for the spread a stop already has is refused |
| PaletteEditor.FindOverride | src/ui/app/visuals/settings/palette.rs:79 | the found override names the index and no earlier one does; nothing is found only when no override names it |
| PaletteEditor.ToHex | src/ui/app/visuals/settings/palette.rs:321-328 | the text starts with '#' and has seven characters for an opaque colour, nine otherwise |
| PaletteEditor.ToHexRoundTrip | src/ui/app/visuals/settings/palette.rs:321-328 | the hex text reads back to exactly the colour's four quantised bytes, so it determines the quantised colour |
| PaletteEditor.NearestHandle | src/ui/app/visuals/settings/palette.rs:336-352 | nothing is found exactly when no handle of the range is within the hit radius; otherwise the found handle is in the range and within the radius, no handle in range is nearer, and no earlier one is as near |
| PaletteEditor.Editor.constructor | src/ui/app/visuals/settings/palette.rs:42-57 | a new editor holds the palette, positions and spreads at their defaults, nothing open, no visible-index filter, no overrides and no ramp |
| PaletteEditor.Editor.SetVisibleIndices | src/ui/app/visuals/settings/palette.rs:63-71 | the filter is stored; an open colour stays open exactly when it is still shown, and is closed otherwise |
| PaletteEditor.Editor.SetPositions | src/ui/app/visuals/settings/palette.rs:96-98 | the sanitised positions, one per stop, are stored |
| PaletteEditor.Editor.SetSpreads | src/ui/app/visuals/settings/palette.rs:100-102 | the sanitised spreads, one per stop, are stored |
| PaletteEditor.Editor.SetColors | src/ui/app/visuals/settings/palette.rs:104-106 | the palette keeps the colours only when there is one per stop and they differ from its defaults, and then shows them; colours of the wrong length leave the defaults in effect |
| PaletteEditor.Editor.LabelFor | src/ui/app/visuals/settings/palette.rs:78-86 | the first override for the index wins, then the palette's own label, else "Color " followed by the index plus one |
| PaletteEditor.Editor.ShownIndices | src/ui/app/visuals/settings/palette.rs:183-188 | every shown index names a stop; with no filter all stops are shown in order; with a filter exactly the filtered indices that name a stop |
| PaletteEditor.Editor.Update | src/ui/app/visuals/settings/palette.rs:108-170 | each event has its effect and reports a change exactly when the palette or its layout changed: open toggles, close closes, a colour, position or spread edit applies the accepted update and leaves everything else, reset returns to the defaults and reports a change only if they were not already in place |
| PaletteEditor.Editor.AdjustColor | src/ui/app/visuals/settings/palette.rs:118-128 | a change happens exactly when the stop exists and the colour differs from its current one; then only that stop's colour changes, otherwise nothing |
| PaletteEditor.Editor.ResetAll | src/ui/app/visuals/settings/palette.rs:157-167 | afterwards nothing is open and the editor is at its defaults; a change is reported exactly when it was not, and otherwise nothing moved |
| PwLoopback.TrackedWithPort | src/audio/pw_loopback.rs:583-585 | the node keeps its descriptor; the port is stored under its id, replacing any port with that id, and every other port stays |
| PwLoopback.TrackedWithoutPort | src/audio/pw_loopback.rs:587-589 | the node keeps its descriptor; the port with that id is gone and every other port stays |
| PwLoopback.LoopbackOutputs | src/audio/pw_loopback.rs:601-624 | the selection is drawn from the node's ports and is empty only for a node without ports; monitor outputs win when there are any, otherwise outputs; a node without outputs offers every port |
| PwLoopback.LoopbackInputs | src/audio/pw_loopback.rs:626-649 | the selection is drawn from the node's ports and is empty only for a node without ports; non-monitor inputs win when there are any, otherwise inputs; a node without inputs offers every port |
| PwLoopback.PortsForLoopback | src/audio/pw_loopback.rs:601-653 | the collected ports are exactly the selected ones, each once |
| PwLoopback.PlanKey | src/audio/pw_loopback.rs:435-440 | a plan's link goes from the source node's output port to the target node's input port |
| PwLoopback.DesiredKeys | src/audio/pw_loopback.rs:411-419 | every plan's link is desired |
| PwLoopback.PlanOf | src/audio/pw_loopback.rs:411-419 | every desired link is the link of some plan |
| PwLoopback.DesiredCount | src/audio/pw_loopback.rs:411-419 | plans with distinct output ports ask for exactly one link each |
| PwLoopback.PlanPortsDistinct | src/audio/pw_loopback.rs:410 | pairing never repeats a port: each plan joins a selected output of the source to a selected input of the target, and no two plans share either port |
| PwLoopback.DesiredWellFormed | src/audio/pw_loopback.rs:410-419 | the desired links join selected ports of the two tracked nodes one to one, and there is one per plan |
| PwLoopback.PurgeOwner | src/audio/pw_loopback.rs:259 | the index keeps exactly the entries of other nodes, unchanged |
| PwLoopback.EntryOf | src/audio/pw_loopback.rs:570-575 | a known node's entry is its own; an unknown node gets an entry with no descriptor and no ports |
| PwLoopback.LoopbackState.constructor | src/audio/pw_loopback.rs:215-224 | a new controller knows no nodes, ports, links or OpenMeters node, and its default sink is unset |
| PwLoopback.LoopbackState.ClearLinks | src/audio/pw_loopback.rs:501-508 | no link remains |
| PwLoopback.LoopbackState.SelectPorts | src/audio/pw_loopback.rs:470-499 | nothing is returned exactly when the node is unknown or offers no ports, and then every link is dropped; otherwise the links stay and the result holds each selected port once |
| PwLoopback.PlanLinks | src/audio/pw_loopback.rs:410-419 | the desired links are those of the pairing, join selected ports one to one, and are as many as the smaller of the two selections |
| PwLoopback.RemoveUndesired | src/audio/pw_loopback.rs:421-432 | exactly the active links that are still desired remain |
| PwLoopback.CreateMissing | src/audio/pw_loopback.rs:434-467 | only desired links remain; a new link exists only where creation succeeded; desired links already active stay; every planned link whose creation succeeds is present |
| PwLoopback.AllPlannedKept | src/audio/pw_loopback.rs:434-467 | when every planned link is present, the links are exactly the desired ones |
| PwLoopback.LoopbackState.RefreshLinks | src/audio/pw_loopback.rs:371-404 | with either node missing or offering no ports, every link is dropped; otherwise the links are brought in line with the pairing as Relink states; no active link ever lies outside the desired set (the channel pairing of the OpenMeters node's selected outputs with the default sink's selected inputs), every desired link is active when every creation succeeds, the links stay one-to-one between selected ports, and no link is created that creation refused |
| PwLoopback.LoopbackState.Relink | src/audio/pw_loopback.rs:406-468 | the selections are paired by channel; afterwards every active link is desired and was active before or was just created, every desired link is active when every creation succeeds, and there are at most as many links as the smaller selection, exactly that many when every creation succeeds |
| PwLoopback.ReconcileLinks | src/audio/pw_loopback.rs:406-468 | for two linkable nodes the kept links lie inside the channel pairing of the selections and cover it when every creation succeeds; each was active or just created; they join selected ports one to one and are at most as many as the smaller selection, exactly that many when every creation succeeds |
| PwLoopback.LoopbackState.ResolveDefaultSinkNode | src/audio/pw_loopback.rs:349-365 | a sink node that is still known is kept; otherwise a known node matching the sink's name is chosen when there is one; otherwise the node id is left as it was |
| PwLoopback.LoopbackState.UpsertNode | src/audio/pw_loopback.rs:226-247 | the descriptor is stored and the node's ports kept; a node named as the OpenMeters sink becomes the OpenMeters node, and a renamed one stops being it; the default sink is re-resolved and the links refreshed (Refreshed: every active link was active before or just created, lies inside the channel pairing of the OpenMeters node's current outputs with the default sink's current inputs, and all of that pairing is active when every creation succeeds) |
| PwLoopback.LoopbackState.RemoveNode | src/audio/pw_loopback.rs:249-269 | an unknown node changes nothing; otherwise the node and its index entries go, it stops being the OpenMeters node and the default sink's node, the sink is re-resolved by name and the links refreshed (Refreshed: every active link was active before or just created, lies inside the channel pairing of the OpenMeters node's current outputs with the default sink's current inputs, and all of that pairing is active when every creation succeeds) |
| PwLoopback.LoopbackState.ForgetNode | src/audio/pw_loopback.rs:250-264 | a known node leaves the nodes and every index entry it owns, and stops being the OpenMeters node and the default sink's node; other nodes keep their ports |
| PwLoopback.LoopbackState.UpsertPort | src/audio/pw_loopback.rs:271-293 | the port joins its node, creating an unannounced entry if needed, and the index; the links are refreshed (Refreshed: every active link was active before or just created, lies inside the channel pairing of the OpenMeters node's current outputs with the default sink's current inputs, and all of that pairing is active when every creation succeeds) only when the node is tracked (the OpenMeters sink or the default sink's node) and are otherwise unchanged |
| PwLoopback.LoopbackState.TrackPort | src/audio/pw_loopback.rs:272-279 | the port joins its node, creating an unannounced entry if needed, and the index under its global id; when the node is untracked the links stay well formed |
| PwLoopback.LoopbackState.RemovePortByGlobal | src/audio/pw_loopback.rs:295-313 | an unindexed id changes nothing and answers false; otherwise the port leaves the index and its node, and the links are refreshed (Refreshed: every active link was active before or just created, lies inside the channel pairing of the OpenMeters node's current outputs with the default sink's current inputs, and all of that pairing is active when every creation succeeds) only when that node is tracked |
| PwLoopback.LoopbackState.UntrackPort | src/audio/pw_loopback.rs:296-302 | an indexed port leaves the index and, when its node is known, that node's ports; when the node is untracked the links stay well formed |
| PwLoopback.LoopbackState.UpdateDefaultSink | src/audio/pw_loopback.rs:315-340 | the sink takes the metadata id, type hint and the parsed name, its node is resolved from the announced subject or by name, and the links are refreshed (Refreshed: every active link was active before or just created, lies inside the channel pairing of the OpenMeters node's current outputs with the default sink's current inputs, and all of that pairing is active when every creation succeeds) |
| PwLoopback.LoopbackState.AnnounceDefaultSink | src/audio/pw_loopback.rs:315-338 | the sink takes the announcement and its node is resolved from the announced subject or by name against the known nodes |
| PwLoopback.LoopbackState.HandleMetadataProperty | src/audio/pw_loopback.rs:181-196 | only the default-sink key changes the sink, then the links are refreshed (Refreshed: every active link was active before or just created, lies inside the channel pairing of the OpenMeters node's current outputs with the default sink's current inputs, and all of that pairing is active when every creation succeeds); any other key leaves the sink and the links alone |
| PwLoopback.LoopbackState.ClearMetadata | src/audio/pw_loopback.rs:342-347 | when the sink came from that metadata object it is emptied and every link goes; otherwise nothing changes |
| PwLoopback.LoopbackState.HandleGlobalRemoved | src/audio/pw_loopback.rs:119-135 | a removed global is handled as a port if indexed, else as a node if known, else as a bound metadata object whose binding is dropped and whose sink announcement is cleared |
| PipewireGraph.NodeFromProps | src/util/pipewire/graph.rs:26-39 | the node keeps its id and node name; its description is the node description, else the media name, else the node name, and is missing only when all three are |
| PipewireGraph.HasNameMatches | src/util/pipewire/graph.rs:49-55 | a node that has a name matches it; a node that matches a name it does not have matches it by its description |
| PipewireGraph.DirectionFromStr | src/util/pipewire/graph.rs:67-73 | a port is an input exactly for "in" and an output exactly for "out", in any ASCII case; anything else is unknown |
| PipewireGraph.DirectionIgnoresCase | src/audio/pw_registry/types.rs:21-28 | the registry's PortDirection::from_str reads "in" and "out" in any ASCII case, as the graph's does: upper-casing the direction text never changes the direction read from it |
| PipewireGraph.NormalizeIdempotent | src/util/pipewire/graph.rs:164-166 | a normalised channel name has no surrounding whitespace, and normalising it again changes nothing |
| PipewireGraph.SortedSources | src/util/pipewire/graph.rs:187-191 | the sources are a permutation of the given ones, ordered by channel name (none first) and then port id |
| PipewireGraph.EnqueueKeeps | src/util/pipewire/graph.rs:176-185 | queuing a target adds exactly that target to the pool and keeps every queue holding only targets of its own normalised channel, with no channel queued twice |
| PipewireGraph.BuildPoolHolds | src/util/pipewire/graph.rs:173-185 | the pool built from the targets holds exactly those targets, each channel queue holding only its own channel |
| PipewireGraph.PickRemoves | src/util/pipewire/graph.rs:196-215 | a pick finds nothing exactly when the pool is empty, and then changes nothing; otherwise it removes exactly the target it returns, and the pool stays well formed |
| PipewireGraph.PickPrefersChannel | src/util/pipewire/graph.rs:196-215 | a source whose channel still has a queued target gets a target of that channel; otherwise the first channel-less target, when there is one |
| PipewireGraph.PickCount | src/util/pipewire/graph.rs:196-219 | a pick that finds a target leaves one target fewer |
| PipewireGraph.PairFromLength | src/util/pipewire/graph.rs:195-220 | as many pairs are made as the smaller of the number of sources and the number of targets |
| PipewireGraph.PairFromSources | src/util/pipewire/graph.rs:195-220 | the pairs are made for a prefix of the sources, in their order |
| PipewireGraph.PairFromTargets | src/util/pipewire/graph.rs:195-220 | no target is used twice, and every target used was offered |
| PipewireGraph.PairPortsByChannel | src/util/pipewire/graph.rs:169-223 | the loops compute the pairing defined on the sorted sources and the pool of all targets: as many pairs as the smaller side, the i-th pair taking the i-th sorted source, each target used at most once |
| PipewireGraph.BuildTargetPool | src/util/pipewire/graph.rs:176-185 | the loop over the targets builds exactly the pool defined by queuing them one at a time |
| PipewireGraph.PairInOrder | src/util/pipewire/graph.rs:195-220 | the loop over the sorted sources builds exactly the pairing defined by picking for each source in turn |
| PipewireGraph.PairingShape | src/util/pipewire/graph.rs:169-223 | the pairing over the pool of all targets has the length of the smaller side, keeps the source order, and uses each target at most once |
| RegistryLegacy.PortDirectionDecides | src/audio/pw_registry.rs:630-683 | derive_direction of the earlier registry, which decides as derive_node_direction does: without a media class the port direction decides: "in" gives an input, "out" an output, in any ASCII case |
| RegistryLegacy.LegacyClearNodeSlot | src/audio/pw_registry.rs:353-367 | a target on the node forgets the node, keeps its name or takes the fallback name, and is never dropped; any other slot is left alone; a change is reported exactly when the target was on the node |
| RegistryLegacy.LegacyDefaults.ApplyUpdate | src/audio/pw_registry.rs:279-315 | the sink key updates only the sink slot, the source key only the source slot, any other key nothing; a change is reported exactly when the defaults changed |
| RegistryLegacy.LegacyDefaults.ReconcileWithNodes | src/audio/pw_registry.rs:317-337 | each slot is reconciled as by ReconcileSlot: no slot appears or disappears and only node ids change; a known node id is kept; an unknown or missing one takes the id of a node carrying the slot's name, and stays empty exactly when no node carries it |
| RegistryLegacy.LegacyDefaults.ClearMetadata | src/audio/pw_registry.rs:339-351 | every slot announced by that metadata object is emptied, the other left alone; a change is reported exactly when the defaults changed |
| RegistryLegacy.LegacyDefaults.ClearNode | src/audio/pw_registry.rs:353-367 | both slots forget the node as a single slot does; a change is reported exactly when the defaults changed |
| RegistryLegacy.ReconcileByName | src/audio/pw_registry.rs:686-712 | a sink slot naming "node.main" resolves to node 42, the node of that name |
| RegistryLegacy.LegacyRegistry.constructor | src/audio/pw_registry.rs:174-181 | a new registry has serial 0, no nodes, no devices and no defaults |
| RegistryLegacy.LegacyRegistry.UpsertNode | src/audio/pw_registry.rs:183-196 | an identical node changes nothing; otherwise the node is stored and the serial moves; the change is reported exactly when the serial moved |
| RegistryLegacy.LegacyRegistry.RemoveNode | src/audio/pw_registry.rs:198-210 | an unknown id changes nothing; otherwise the node goes and the serial moves; the removal is reported exactly when the serial moved |
| RegistryLegacy.LegacyRegistry.UpsertDevice | src/audio/pw_registry.rs:212-224 | an identical device changes nothing; otherwise the device is stored and the serial moves; the change is reported exactly when the serial moved |
| RegistryLegacy.LegacyRegistry.RemoveDevice | src/audio/pw_registry.rs:226-233 | the device is gone afterwards; true and a moved serial exactly when it was known |
| RegistryLegacy.LegacyRegistry.ApplyMetadataProperty | src/audio/pw_registry.rs:235-257 | a change moves the serial and only a change does; unchanged defaults stay; a missing key leaves no slot announced by that metadata object |
| RegistryLegacy.LegacyRegistry.ClearMetadataDefaults | src/audio/pw_registry.rs:259-267 | a change, and a moved serial, happen exactly when a slot came from that metadata object; afterwards none does |
| RegistryState.PortPosition | src/audio/pw_registry/state.rs:60 | the found index holds a port with the id and no earlier one does; nothing is found only when no port has the id |
| RegistryState.UpsertFindsPort | src/audio/pw_registry/state.rs:60-70 | after an upsert the port is the first one with its id, every port with another id stays where it was, and at most one entry is added |
| RegistryState.WithoutPort | src/audio/pw_registry/state.rs:86 | exactly the ports with another id remain, never more than before |
| RegistryState.InsertById | src/audio/pw_registry/state.rs:14-24 | inserting a node with a new id into an id-sorted sequence keeps it sorted, adds exactly that node and grows it by one |
| RegistryState.RegistryState.constructor | src/audio/pw_registry/state.rs:14-24 | a new registry has serial 0, no nodes, no devices, no indexed ports and no defaults |
| RegistryState.RegistryState.Snapshot | src/audio/pw_registry/state.rs:14-24 | the snapshot holds exactly the stored nodes, each once, sorted by id, with the serial, device count and defaults |
| RegistryState.RegistryState.UpsertNode | src/audio/pw_registry/state.rs:26-34 | an identical node changes nothing; otherwise the node is stored, the serial moves and every default slot on a node points at a known node; change reported exactly when the serial moved |
| RegistryState.RegistryState.RemoveNode | src/audio/pw_registry/state.rs:36-47 | an unknown id changes nothing; otherwise the node goes, no default slot stays on it, and the serial moves; removal reported exactly when the serial moved |
| RegistryState.RegistryState.AddDevice | src/audio/pw_registry/state.rs:49-52 | one more device is counted and the serial moves, wrapping at 2^64 |
| RegistryState.RegistryState.UpsertPort | src/audio/pw_registry/state.rs:54-77 | a port of an unknown node is refused; otherwise a change happens exactly when the upsert alters the node's ports, and only then are the ports, the index and the serial updated |
| RegistryState.RegistryState.RemovePort | src/audio/pw_registry/state.rs:79-89 | the index entry is always gone afterwards; a removal happens exactly when the entry existed and its node is known, and then that node's ports with the port id go and the serial moves |
| RegistryState.RegistryState.ApplyMetadataProperty | src/audio/pw_registry/state.rs:91-113 | corrected: a change moves the serial and only a change does; an unrelated key changes nothing; a missing key changes something exactly when a slot came from that metadata object, and afterwards none does |
| RegistryTypes.Bump | src/audio/pw_registry.rs:269-271 | bump_serial (here and in state.rs) adds one and wraps to zero past the largest 64-bit value, so the serial stays a 64-bit value and always differs from the one before |
| RegistryTypes.DeriveNodeDirection | src/audio/pw_registry/types.rs:69-87 | a media class naming a sink or output makes an output node; else one naming a source or input an input node; otherwise the node is an input exactly when its port direction reads "in" in any ASCII case |
| RegistryTypes.DirectionIgnoresClassCase | src/audio/pw_registry/types.rs:69-87 | upper-casing the media class never changes the derived direction |
| RegistryTypes.FormatTargetMetadata | src/audio/pw_registry/types.rs:138-149 | the target node is the node id as text; the target object is the trimmed object serial when that is not blank, else the node id |
| RegistryTypes.TargetObjectNeverBlank | src/audio/pw_registry/types.rs:138-149 | the target object is never blank and never has surrounding whitespace |
| RegistryTypes.DisplayName | src/audio/pw_registry/types.rs:260-266 | the name, else the description, else "node#" followed by the id |
| RegistryTypes.LabelIgnoresCase | src/audio/pw_registry/types.rs:276-281 | upper-casing the query never changes whether a node matches it |
| RegistryTypes.FilterPorts | src/audio/pw_registry/types.rs:305-319 | exactly the node's ports of the direction with the requested monitor flag remain, in order |
| RegistryTypes.PortsForLoopback | src/audio/pw_registry/types.rs:304-324 | the ports of the direction with the preferred monitor flag when there are any; else all ports of the direction; else every port |
| RegistryTypes.LoopbackPortsFromNode | src/audio/pw_registry/types.rs:304-324 | every chosen port is one of the node's, and the choice is empty only for a node without ports |
| RegistryTypes.PreferredPortChosen | src/audio/pw_registry/types.rs:304-324 | a port of the direction with the preferred monitor flag is always chosen |
| RegistryTypes.OutputPortsForLoopback | src/audio/pw_registry/types.rs:296-298 | when the node has monitor outputs, only monitor outputs are chosen |
| RegistryTypes.InputPortsForLoopback | src/audio/pw_registry/types.rs:300-302 | when the node has non-monitor inputs, only non-monitor inputs are chosen |
| RegistryTypes.UpdateTarget | src/audio/pw_registry/types.rs:101-119 | the target becomes the announcement, and a change is reported exactly when it differed |
| RegistryTypes.UpdateSettles | src/audio/pw_registry/types.rs:101-119 | repeating the same announcement reports no change |
| RegistryTypes.ApplyToSlot | src/audio/pw_registry/types.rs:334-364 | a value fills the slot from the announcement with the stored name; no value empties the slot exactly when it came from the same metadata object; the flag tells whether the slot changed |
| RegistryTypes.ClearSlot | src/audio/pw_registry/types.rs:401-419 | a matching target is mutated and then dropped exactly when it names neither a node nor a name; anything else is left alone; the flag tells whether it matched |
| RegistryTypes.ClearNodeForgets | src/audio/pw_registry/types.rs:389-399 | afterwards no slot refers to the node; a slot that did keeps its name or takes the fallback, and disappears only when it has neither; the flag tells whether one did |
| RegistryTypes.ClearMetadataKeepsTarget | src/audio/pw_registry/types.rs:385-387 | as written, clearing metadata object 5 reports a change yet keeps the target announced by it for node 3 |
| RegistryTypes.ClearMetadataSlot | src/audio/pw_registry/types.rs:385-387 | corrected: a target from that metadata object is dropped, anything else is kept, and the flag tells exactly whether the slot changed; no target from the object survives |
| RegistryTypes.ClearMetadataSettles | src/audio/pw_registry/types.rs:385-387 | clearing the same metadata object twice reports no change the second time |
| RegistryTypes.ReconcileSlot | src/audio/pw_registry/types.rs:366-383 | no slot appears or disappears and only the node id changes; a known node id is kept; a slot whose node is unknown or missing takes the id of a node carrying its name, and has none exactly when no node does |
| RegistryTypes.NodeNames | src/audio/pw_registry/types.rs:366-383 | one entry per known node, holding that node's name |
| RegistryTypes.MetadataDefaults.constructor | src/audio/pw_registry/types.rs:327-331 | new defaults have neither a sink nor a source |
| RegistryTypes.MetadataDefaults.ApplyUpdate | src/audio/pw_registry/types.rs:334-364 | the sink key updates only the sink slot, the source key only the source slot, any other key nothing; a change is reported exactly when the defaults changed |
| RegistryTypes.MetadataDefaults.ReconcileWithNodes | src/audio/pw_registry/types.rs:366-383 | each slot is reconciled as by ReconcileSlot: no slot appears or disappears and only node ids change; a known node id is kept; an unknown or missing one takes the id of a node carrying the slot's name, and stays empty exactly when no node carries it |
| RegistryTypes.MetadataDefaults.ClearMetadata | src/audio/pw_registry/types.rs:385-387 | corrected: the targets announced by that metadata object are dropped from both slots; a change is reported exactly when the defaults changed |
| RegistryTypes.MetadataDefaults.ClearNode | src/audio/pw_registry/types.rs:389-399 | both slots forget the node, keeping a name where they can; a change is reported exactly when the defaults changed |
| RegistryTypes.FindNodeByLabel | src/audio/pw_registry/types.rs:212-214 | a found node is in the snapshot and matches by name or description, ignoring ASCII case; nothing is found only when no node matches |
| RegistryTypes.ResolveDefaultTarget | src/audio/pw_registry/types.rs:200-210 | a resolved node is in the snapshot and carries the target's id or matches its name; a known id always resolves to that node; nothing resolves only when the name matches no node |
| RegistryTypes.DescribeDefaultTarget | src/audio/pw_registry/types.rs:189-198 | the raw text is the target's name or "(none)"; the display text is the resolved node's display name, else the raw text, and "(none)" with no target |
| RegistryTypes.RouteCandidates | src/audio/pw_registry/types.rs:216-218 | exactly the nodes that should be routed to the sink remain, and never the sink itself |
| LoudnessDsp.MeanSquareToLufs | src/dsp/loudness.rs:10-13 | the loudness is ten times the base-10 logarithm of the mean square, raised to the floor when below it, and never below the floor |
| LoudnessDsp.PeakToDb | src/dsp/loudness.rs:15-21 | a peak at or below f32::EPSILON reads as the floor; otherwise twenty times the base-10 logarithm, never below the floor |
| LoudnessDsp.WindowLength | src/dsp/loudness.rs:23-25 | the window spans the rate times the duration rounded down, and at least one sample |
| LoudnessDsp.PushWindow | src/dsp/loudness.rs:44-53 | the pushed value is the newest in the window, and the window grows by one until it holds its capacity |
| LoudnessDsp.PushAllKeepsLatest | src/dsp/loudness.rs:44-53 | after any pushes the window holds exactly the most recent capacity-many values, in order |
| LoudnessDsp.MeanOfConstant | src/dsp/loudness.rs:55-61 | a window holding one repeated value has that value as its mean |
| LoudnessDsp.RollingWindowExample | src/dsp/loudness.rs:235-246 | with capacity four, pushing 1, 9, 16, 25 and 36 keeps 9, 16, 25 and 36 |
| LoudnessDsp.RollingMeanExample | src/dsp/loudness.rs:235-246 | the mean of 9, 16, 25 and 36 is 21.5, the value the rolling average reports |
| LoudnessDsp.PartialWindowExample | src/dsp/loudness.rs:235-239 | before the window fills, the mean is over the values pushed so far: 1 and 9 give 5 |
| LoudnessDsp.RollingMeanSquare.constructor | src/dsp/loudness.rs:35-42 | a new window has the given positive capacity and holds nothing |
| LoudnessDsp.RollingMeanSquare.Push | src/dsp/loudness.rs:44-53 | the window becomes the pushed window: the oldest value leaves once full, and the running sum stays the sum of the contents |
| LoudnessDsp.RollingMeanSquare.Mean | src/dsp/loudness.rs:55-61 | the running sum divided by the count is the mean of the values held, zero when empty |
| LoudnessDsp.RollingMeanSquare.Reset | src/dsp/loudness.rs:63-66 | the window is emptied and keeps its capacity |
| LoudnessDsp.WithChannels | src/dsp/loudness.rs:77-82 | one loudness and one peak reading per channel, all at the floor |
| LoudnessDsp.PeakOfIsMax | src/dsp/loudness.rs:179-185 | a channel's block peak is at least every sample's magnitude and is zero or one of them |
| LoudnessDsp.MomentaryLufs | src/dsp/loudness.rs:190-193 | the reported loudness of a window is never below the floor |
| LoudnessDsp.LoudnessProcessor.constructor | src/dsp/loudness.rs:115-122 | a new processor has the configuration, no channels, and an empty snapshot |
| LoudnessDsp.LoudnessProcessor.RebuildState | src/dsp/loudness.rs:149-156 | one fresh empty window per channel, peaks at zero and every reading at the floor |
| LoudnessDsp.LoudnessProcessor.EnsureState | src/dsp/loudness.rs:132-147 | the channel count becomes at least one; a positive rate that differs by more than f32::EPSILON is adopted; the state is rebuilt exactly when the count or the rate changed, and left alone otherwise |
| LoudnessDsp.LoudnessProcessor.PushChannel | src/dsp/loudness.rs:182 | the channel's window takes the value and every other window keeps its contents |
| LoudnessDsp.LoudnessProcessor.PushFrame | src/dsp/loudness.rs:180-184 | each channel's window takes the square of its sample in the frame, and its peak rises to that sample's magnitude |
| LoudnessDsp.LoudnessProcessor.PushFrames | src/dsp/loudness.rs:178-188 | the windows take every whole frame in order, a partial frame is ignored, and the peaks are the per-channel maxima over the whole frames |
| LoudnessDsp.LoudnessProcessor.PublishReadings | src/dsp/loudness.rs:190-197 | each channel's reading is the loudness of its window and the dB value of its peak |
| LoudnessDsp.LoudnessProcessor.ProcessBlock | src/dsp/loudness.rs:162-200 | no update exactly for no channels or no whole frame, and then nothing changes; otherwise each window holds the latest squares of its channel (from empty after a rebuild), the peaks are the block maxima, and the snapshot returned holds their readings |
| LoudnessDsp.LoudnessProcessor.Reset | src/dsp/loudness.rs:202-216 | every window is emptied, the peaks are zeroed and the readings go back to the floor |
| LoudnessDsp.LoudnessProcessor.UpdateConfig | src/dsp/loudness.rs:220-226 | the new configuration is adopted and every window rebuilt empty at its capacity, with readings at its floor |
| LoudnessView.Guides | src/ui/visualization/loudness.rs:196-200 | exactly the guide levels inside the displayed range remain |
| LoudnessView.DefaultRangeKeepsAllGuides | src/ui/visualization/loudness.rs:196-200 | with the default range every guide level is drawn |
| LoudnessView.MaxFrom | src/ui/visualization/loudness.rs:212-221 | the result is at least the floor and every value, and is the floor or one of the values |
| LoudnessView.MaxFromAppend | src/ui/visualization/loudness.rs:212-221 | folding further values continues from the maximum reached so far |
| LoudnessView.LoudnessState.constructor | src/ui/visualization/loudness.rs:88-103 | every level starts at the bottom of the range, with two channels, true peak on the left and short-term loudness on the right |
| LoudnessView.LoudnessState.ApplySnapshot | src/ui/visualization/loudness.rs:105-114 | the loudness values are taken, the channel count becomes at least one, and the levels of the channels present are copied while the other slots keep theirs |
| LoudnessView.LoudnessState.GetValue | src/ui/visualization/loudness.rs:142-162 | the loudness modes read the single loudness value; the others read the channel's slot, or the bottom of the range past the last slot |
| LoudnessView.LoudnessState.AggregateChannels | src/ui/visualization/loudness.rs:208-238 | a loudness mode shows the single loudness value; otherwise the result is the largest of the range floor and the side's present channels, so it is at least each of them |
| LoudnessView.LoudnessState.FoldPresent | src/ui/visualization/loudness.rs:212-217 | the loop over the side's channels computes the maximum from the range floor over exactly the present channels |
| LoudnessView.LoudnessState.VisualParams | src/ui/visualization/loudness.rs:164-206 | always two bars: the first with the left meter's mode aggregated over the left and right channels, the second with channel 0 of the right meter's mode; the guides inside the range, a 0 dB threshold, and the palette colours in their places |
| RenderCommon.WrappingIncrement | src/ui/render/common.rs:320 | adding one to a 64-bit counter wraps to zero past the largest value |
| RenderCommon.CounterAfterStep | src/ui/render/common.rs:320 | each call steps the counter by one wrapping increment |
| RenderCommon.PruneEveryInterval | src/ui/render/common.rs:318-326 | call k offers a prune threshold exactly when k is a multiple of 256, wrap-around notwithstanding, because 256 divides 2^64 |
| RenderCommon.CacheTracker.constructor | src/ui/render/common.rs:308-312 | a new tracker starts at frame 0 with a zero counter |
| RenderCommon.CacheTracker.Advance | src/ui/render/common.rs:318-326 | the frame advances by one, wrapping to 1 rather than 0, and is returned; every 256th call also returns the prune threshold, 1024 frames back saturating at 0, which is always below the frame |
| RenderCommon.BucketNonEmpty | src/ui/render/common.rs:223-231 | with at least one point per bucket, every bucket's range is non-empty and within the line |
| RenderCommon.BucketExtremes | src/ui/render/common.rs:232-240 | the scan finds, inside the bucket, the first point of least height and the first point of greatest height |
| RenderCommon.DecimateLine | src/ui/render/common.rs:219-245 | a line that fits is returned unchanged; a longer one gives two points per bucket, at most the limit, all taken from the line, and every bucket keeps its lowest and highest point in index order |
| RenderCommon.KeptExtend | src/ui/render/common.rs:241-242 | what was kept for an earlier bucket stays kept when later buckets append their points |
| RenderCommon.KeptNew | src/ui/render/common.rs:241-242 | appending a bucket's lowest and highest point in index order keeps that bucket |
| RenderCommon.AppendStrip | src/ui/render/common.rs:248-256 | an empty strip changes nothing; into an empty batch the strip goes as it is; otherwise the last vertex and the strip's first are each repeated once between them, and both the batch and the strip survive whole |
| RenderCommon.AppendStripKeepsEarlier | src/ui/render/common.rs:248-256 | strips appended one after another never disturb what the batch held before |
| RenderCommon.SegmentVertices | src/ui/render/common.rs:203-213 | a segment gives two triangles sharing an edge, with the near side at minus the outer distance and the far side at plus it, every vertex carrying the half width |
| RenderCommon.HalfStroke | src/ui/render/common.rs:194 | the half width is at least 0.05, since a stroke is at least 0.1 wide |
| RenderCommon.AaLineLength | src/ui/render/common.rs:185-216 | six vertices per drawn segment, so at most six per pair of neighbouring points and none for fewer than two points |
| RenderCommon.AaLineQuads | src/ui/render/common.rs:196-213 | every group of six vertices forms the two triangles of one drawn segment |
| RenderCommon.BuildAaLineList | src/ui/render/common.rs:185-216 | the loop over neighbouring points builds exactly the line defined segment by segment, six vertices per drawn segment, and nothing for fewer than two points |
| RenderSpectrum.SegmentIndex | src/ui/render/spectrum.rs:187-188 | the stop a blend starts from is the integer part of the scaled position, at most the second-to-last stop |
| RenderSpectrum.LerpPalette | src/ui/render/spectrum.rs:182-191 | no stops give no colour and one stop gives itself; otherwise positions at or below 0 give the first stop and at or above 1 the last |
| RenderSpectrum.SegmentWeightInRange | src/ui/render/spectrum.rs:187-190 | the blend weight stays within [0, 1], so the colour lies between two neighbouring stops |
| RenderSpectrum.LerpPaletteAtStop | src/ui/render/spectrum.rs:182-191 | at the position of stop k the palette gives exactly stop k |
| RenderSpectrum.PaletteColor | src/ui/render/spectrum.rs:194-197 | the colour is the palette blend at the intensity clamped to [0, 1]; at or below the threshold it is the first stop and at full amplitude the last |
| RenderSpectrum.MaxLevel | src/ui/render/spectrum.rs:204 | the fold from 0 with max is at least every level, never negative, and is 0 or one of the levels |
| RenderSpectrum.SampleRange | src/ui/render/spectrum.rs:200-202 | the range read never reaches past the last point |
| RenderSpectrum.SampleMax | src/ui/render/spectrum.rs:199-206 | the result is never negative, is at least every level in the covered range, and is 0 or one of those levels |
| RenderSpectrum.SampleLerp | src/ui/render/spectrum.rs:208-216 | no points give 0, a single point its level; otherwise positions at or below 0 give the first level and at or above 1 the last |
| RenderSpectrum.SampleLerpAtPoint | src/ui/render/spectrum.rs:208-216 | at point k's own position the interpolated level is point k's level |
| RenderSpectrum.Layout | src/ui/render/spectrum.rs:97-100 | at least four bars; each slot is the width divided evenly, holding its bar and half a gap on each side |
| RenderSpectrum.LayoutGapClamped | src/ui/render/spectrum.rs:98-100 | the gap is clamped to [0, 0.8], so on a non-negative width each bar fills at least a fifth of its slot and no offset is negative |
| RenderSpectrum.SlotAmps | src/ui/render/spectrum.rs:105-110 | one amplitude per slot, the largest level over the slot's span, never negative |
| RenderSpectrum.Bars | src/ui/render/spectrum.rs:105-137 | every bar drawn belongs to a slot whose amplitude reaches 0.0001, has that amplitude and its palette colour, and the bars come in slot order |
| RenderSpectrum.BarsComplete | src/ui/render/spectrum.rs:105-137 | every slot whose amplitude reaches 0.0001 gets its bar |
| SpectrogramDsp.CosineWindow | src/dsp/spectrogram.rs:175-185 | a cosine-series window has one coefficient per sample |
| SpectrogramDsp.Coefficients | src/dsp/spectrogram.rs:160-172 | windows of length 0 or 1, and every rectangular window, are all ones; every window except Planck-Bessel has the requested length |
| SpectrogramDsp.WindowStartValues | src/dsp/spectrogram.rs:160-172 | with cos(0) = 1 the Hann and Blackman windows start at zero and the Hamming window at 0.08 |
| SpectrogramDsp.FiniteDiff | src/dsp/spectrogram.rs:982-1014 | a derivative has one value per input sample; an empty window gives an empty derivative |
| SpectrogramDsp.FiniteDiffConstant | src/dsp/spectrogram.rs:982-1014 | both the first and the second derivative of a constant window are zero everywhere, edges included |
| SpectrogramDsp.FiniteDiffLinear | src/dsp/spectrogram.rs:982-1014 | the interior first derivative of a straight line equals its slope |
| SpectrogramDsp.EnergyNorm | src/dsp/spectrogram.rs:1093-1105 | size/2 + 1 factors; DC and Nyquist get the inverse window energy, every other bin twice that |
| SpectrogramDsp.KernelWeight | src/dsp/spectrogram.rs:41-51 | every tap of the normalised 3x3 Gaussian kernel is positive |
| SpectrogramDsp.FullGainIsValue | src/dsp/spectrogram.rs:41-51 | the nine kernel weights add up to one |
| SpectrogramDsp.AddCellOnGrid | src/dsp/spectrogram.rs:538-541 | a cell (t, f) on the grid is the slot t * w + f and only that slot grows |
| SpectrogramDsp.DepositStep | src/dsp/spectrogram.rs:530-541 | loop step (kx, ky) of apply_kernel deposits tap 3 * kx + ky |
| SpectrogramDsp.InteriorSlot | src/dsp/spectrogram.rs:528-534 | away from the border the fast path's offset base + ky * w + kx - w - 1 is in bounds and is exactly the tap's cell |
| SpectrogramDsp.DepositOutside | src/dsp/spectrogram.rs:527-545 | cells more than one row or column from the centre are never changed |
| SpectrogramDsp.AddCellSum | src/dsp/spectrogram.rs:538-541 | adding to a cell on the grid raises the grid total by the amount; a cell off the grid changes nothing |
| SpectrogramDsp.DepositMass | src/dsp/spectrogram.rs:527-545 | a deposit raises the grid total by exactly the weight of the taps that land on the grid |
| SpectrogramDsp.TapGainBounds | src/dsp/spectrogram.rs:536-543 | one tap of a non-negative value adds between nothing and its full share, and its full share away from the border |
| SpectrogramDsp.GainBounds | src/dsp/spectrogram.rs:527-545 | the deposited mass of a non-negative value lies between zero and the full kernel mass, and equals it away from the border |
| SpectrogramDsp.KernelMass | src/dsp/spectrogram.rs:527-545 | apply_kernel conserves energy: an interior centre adds exactly val to the grid, a border centre at most val and never less than nothing |
| SpectrogramDsp.KernelInterior | src/dsp/spectrogram.rs:528-534 | the direct-indexing fast path equals the reference deposit of all nine taps |
| SpectrogramDsp.KernelClipped | src/dsp/spectrogram.rs:535-543 | the bounds-checked path equals the reference deposit of all nine taps |
| SpectrogramDsp.ShiftedRow | src/dsp/spectrogram.rs:547-550 | after an advance, row r holds what row r + 1 held |
| SpectrogramDsp.ShiftedLastRow | src/dsp/spectrogram.rs:547-550 | after an advance, the last row is all zero |
| SpectrogramDsp.BinPower | src/dsp/spectrogram.rs:551-558 | a bin whose energy scale is at most f32::EPSILON feeds zero power to the decibel conversion |
| SpectrogramDsp.BinPowerUnscaled | src/dsp/spectrogram.rs:551-558 | without scale tables (both fall back to 1.0) the accumulated power passes through unchanged |
| SpectrogramDsp.ReassignmentGrid.constructor | src/dsp/spectrogram.rs:422-441 | a new grid is enabled exactly when reassignment is on, the bin count is positive and the sample rate positive |
| SpectrogramDsp.ReassignmentGrid.Reconfigure | src/dsp/spectrogram.rs:443-479 | enabled exactly under the same condition; when enabled, at least two bins and 2 * hops + 1 rows; buffers kept when the shape is unchanged and reallocated zeroed, magnitudes at the floor, otherwise |
| SpectrogramDsp.ReassignmentGrid.ApplyKernel | src/dsp/spectrogram.rs:527-545 | the grid becomes the reference kernel deposit, which conserves mass as KernelMass states |
| SpectrogramDsp.ReassignmentGrid.Advance | src/dsp/spectrogram.rs:547-560 | emits row 0, shifts every row up and clears the last, and sets each magnitude to the decibel value of the bin's scaled power |
| SpectrogramDsp.ReassignmentGrid.ClearValues | src/dsp/spectrogram.rs:931-936 | the grid is zeroed and every magnitude is at the decibel floor, sizes unchanged |
| SpectrogramDsp.StaleHistoryCap | src/dsp/spectrogram.rs:941-955 | as written, changing the FFT size and the history length together leaves the history capacity at the old 240 |
| SpectrogramDsp.SpectrogramProcessor.constructor | src/dsp/spectrogram.rs:605-631 | a new processor has an empty history and sample queue, the configured capacity and a pending reset |
| SpectrogramDsp.SpectrogramProcessor.HistPush | src/dsp/spectrogram.rs:877-887 | the history keeps the latest hist_cap columns in order; capacity zero keeps none |
| SpectrogramDsp.SpectrogramProcessor.ClearHistory | src/dsp/spectrogram.rs:889-895 | every column is dropped and a reset is flagged |
| SpectrogramDsp.SpectrogramProcessor.TrimHistory | src/dsp/spectrogram.rs:955-962 | columns are dropped from the front until the new capacity holds; the newest are kept in order |
| SpectrogramDsp.SpectrogramProcessor.RebuildFft | src/dsp/spectrogram.rs:637-664 | history cleared with a reset flagged, at most two windows of samples kept (the oldest), grid enabled under the reconfigure condition |
| SpectrogramDsp.SpectrogramProcessor.UpdateConfig | src/dsp/spectrogram.rs:940-978 | corrected: an FFT change rebuilds; otherwise a grid change clears the history, and with neither the history is the newest columns up to the new length; samples are kept unless the FFT changed; the capacity always follows the new history length |
| SpectrogramDsp.SpectrogramProcessor.Reset | src/dsp/spectrogram.rs:931-936 | history and sample queue empty, reset flagged |
| SpectrogramRender.FromParams | src/ui/render/spectrogram.rs:252-271 | the power-of-two flag is set exactly for a non-zero power-of-two texture width, and then the wrap mask is width - 1 (else flag and mask are 0); contrast at least 0.01 and screen height at least 1, both passed through when already above; other fields copied |
| SpectrogramRender.LutPosition | src/ui/render/spectrogram.rs:688-704 | every table entry falls between the first and the last palette stop |
| SpectrogramRender.LutLower | src/ui/render/spectrogram.rs:688-704 | the lower stop of an entry is a valid stop index whose position is the floor of the entry's position |
| SpectrogramRender.LutByte | src/ui/render/spectrogram.rs:688-704 | every table byte fits in a u8 |
| SpectrogramRender.BuildPaletteLut | src/ui/render/spectrogram.rs:688-704 | 256 RGBA byte quadruples; the first entry is the first stop quantised, the last entry the last stop quantised |
| SpectrogramRender.UniformPaletteLut | src/ui/render/spectrogram.rs:688-704 | a palette of one repeated colour yields that colour in every entry |
| SpectrogramRender.LastFitting | src/ui/render/spectrogram.rs:66-67 | rposition: the last parked buffer large enough for the request, and None exactly when no buffer is large enough |
| SpectrogramRender.SwapRemove | src/ui/render/spectrogram.rs:69 | Vec::swap_remove: one element shorter, the removed element gone from the multiset, the last element moved into the hole, every other position unchanged |
| SpectrogramRender.ColumnBufferPool.Acquire | src/ui/render/spectrogram.rs:64-75 | a zeroed buffer of exactly the requested length; reuses (and removes) the last parked buffer that is large enough, otherwise allocates one of exactly that capacity and leaves the pool alone |
| SpectrogramRender.ColumnBufferPool.Release | src/ui/render/spectrogram.rs:77-85 | a buffer is parked only when its capacity is at most 16384 and fewer than 64 are parked; otherwise the pool is unchanged |
| SpectrogramRender.GrownCapacity | src/ui/render/spectrogram.rs:518-556 | the capacity never shrinks, covers the request clamped to [1, 8192] per axis, stays unchanged when the request already fits, and stays within 8192 |
| SpectrogramRender.Chunk | src/ui/render/spectrogram.rs:567-569 | chunks(h): the j-th piece is a non-empty slice of the base image at offset j * h, at most h long |
| SpectrogramRender.BaseWrites | src/ui/render/spectrogram.rs:567-571 | one write per chunk of the base image, at most w of them, column j getting chunk j |
| SpectrogramRender.UpdateWrites | src/ui/render/spectrogram.rs:572-576 | updates with empty values are skipped; every write lands in a column below w; when all updates are non-empty and in range none is dropped |
| SpectrogramRender.ColumnWrites | src/ui/render/spectrogram.rs:558-577 | a zero-width or zero-height texture receives no writes; every write lands on a column inside the texture |
| SpectrogramRender.WriteEach | src/ui/render/spectrogram.rs:579-588 | writing column by column produces the reference result of applying the writes in order |
| SpectrogramRender.ApplyWritesUntouched | src/ui/render/spectrogram.rs:558-577 | a column no write touches keeps its contents |
| SpectrogramRender.ApplyWritesLast | src/ui/render/spectrogram.rs:558-577 | a column touched by several writes holds the values of the last one |
| SpectrogramRender.Resources.constructor | src/ui/render/spectrogram.rs:462-503 | the texture capacity is the requested size, at least 1 by 1; caches start zeroed |
| SpectrogramRender.Resources.GrowMagnitude | src/ui/render/spectrogram.rs:518-556 | the capacity becomes the grown capacity described by GrownCapacity |
| SpectrogramRender.Resources.WriteColumns | src/ui/render/spectrogram.rs:558-577 | the texture receives the base image first, then each non-empty update, clipped to the current capacity |
| SpectrogramRender.Resources.WriteUniforms | src/ui/render/spectrogram.rs:590-596 | uploads exactly when the new uniform block differs from the cached one, and caches it |
| SpectrogramRender.Resources.WritePalette | src/ui/render/spectrogram.rs:598-612 | rebuilds and uploads the lookup table exactly when the palette changed; otherwise the table is kept |
| SpectrogramRender.Resources.Sync | src/ui/render/spectrogram.rs:505-516 | grows the texture, writes the columns against the grown capacity, then caches uniforms and palette |
| SpectrogramView.NewBinMapping | src/ui/visualization/spectrogram.rs:84-123 | one entry per row; passthrough maps row i to bin i with weight 0; otherwise each row's clamped bin position in [0, fft/2] splits into a floor bin, the next bin (capped at fft/2) and a fractional weight in [0, 1) that add back up to the position |
| SpectrogramView.Normalize | src/ui/visualization/spectrogram.rs:225-234 | a magnitude lands in [0, 1]: 0 at or below the floor, and otherwise its clamped distance above the floor divided by the span |
| SpectrogramView.ColumnValues | src/ui/visualization/spectrogram.rs:223-238 | a column of exactly `height` values, each in [0, 1]; under a passthrough mapping each row is the normalised magnitude of its own bin |
| SpectrogramView.EmptyRing | src/ui/visualization/spectrogram.rs:170-172 | a freshly sized ring is well formed with write index and count zero |
| SpectrogramView.LatestColumn | src/ui/visualization/spectrogram.rs:264-270 | 0 for an empty ring; otherwise the slot just before the write index, cyclically, i.e. the last slot written |
| SpectrogramView.AdvanceIndex | src/ui/visualization/spectrogram.rs:235 | the write index wraps to 0 after the last slot and otherwise moves up by one |
| SpectrogramView.Splice | src/ui/visualization/spectrogram.rs:227-234 | writing a column replaces exactly its slot's range and keeps every value in [0, 1] |
| SpectrogramView.PushRing | src/ui/visualization/spectrogram.rs:223-238 | push_column: the column lands at the write index and nothing else changes; the index advances cyclically, the count grows until it reaches the capacity, and the pushed slot becomes the latest column |
| SpectrogramView.PushAllCounters | src/ui/visualization/spectrogram.rs:191-199 | after any batch the write index has advanced by the number of accepted columns modulo the capacity, and the count is that number added and capped at the capacity |
| SpectrogramView.NewUpdates | src/ui/visualization/spectrogram.rs:191-204 | one queued upload per accepted column, each naming a slot inside the ring and carrying `height` values in [0, 1] |
| SpectrogramView.PushAllSnoc | src/ui/visualization/spectrogram.rs:191-204 | one more input column extends the ring by one push step and the upload list by that column's slot and values, when it is long enough |
| SpectrogramView.UpdateMatchesRing | src/ui/visualization/spectrogram.rs:196-199 | the values queued for an upload are exactly what the ring holds at that slot after the push |
| SpectrogramView.FirstNonEmpty | src/ui/visualization/spectrogram.rs:155-159 | the first column with any magnitudes; None exactly when every column is empty |
| SpectrogramView.NewHeight | src/ui/visualization/spectrogram.rs:359-363 | a height exists exactly when some column is non-empty, and it lies in (0, 8192] |
| SpectrogramView.DisplayFreqs | src/ui/visualization/spectrogram.rs:240-255 | display frequencies are kept only under passthrough, and then exactly `height` of them |
| SpectrogramView.MappingFor | src/ui/visualization/spectrogram.rs:240-255 | the mapping update_mapping builds has one entry per row |
| SpectrogramView.IntervalEstimate | src/ui/visualization/spectrogram.rs:206-217 | unchanged without new columns or a previous timestamp; otherwise the elapsed time per column, blended 80/20 with a positive previous estimate (so it lies between the two) or taken as is |
| SpectrogramView.ScrollPhase | src/ui/visualization/spectrogram.rs:272-281 | always in [0, 1); 0 without a timestamp or interval; otherwise the elapsed fraction of one interval, until a whole interval has passed |
| SpectrogramView.KeepLength | src/ui/visualization/spectrogram.rs:364-369 | VecDeque::retain by length: only columns of the given length remain, all of them do, and nothing is removed when all match |
| SpectrogramView.RetainedHistory | src/ui/visualization/spectrogram.rs:355-369 | the history never exceeds the history length; when the column height changes, only columns of the new height remain, and every column of that height among the newest history-length ones is kept; otherwise it is the newest suffix of the old history followed by the new columns |
| SpectrogramView.ClippedFloor | src/ui/visualization/spectrogram.rs:324-337 | the floor is at least 1 dB below the ceiling; a finite floor below that is taken as given, a non-finite one becomes the default floor |
| SpectrogramView.UvYRange | src/ui/visualization/spectrogram.rs:473-477 | the visible band lies in [0, 1], is 1/zoom tall (zoom taken as at least 1) and is centred on the pan whenever that fits |
| SpectrogramView.CursorMatchesView | src/ui/visualization/spectrogram.rs:479-488 | within the pan bounds, the point zoom_at keeps under the cursor is the texture coordinate the view shows there |
| SpectrogramView.SpectrogramBuffer.constructor | src/ui/visualization/spectrogram.rs:143-145 | an empty ring with nothing pending and no timing |
| SpectrogramView.SpectrogramBuffer.Latest | src/ui/visualization/spectrogram.rs:264-270 | a non-empty ring's latest column is a slot inside it |
| SpectrogramView.SpectrogramBuffer.NeedsRebuild | src/ui/visualization/spectrogram.rs:257-262 | a rebuild is needed exactly when the ring is empty, its capacity differs from the history length as u32, or the columns changed to a non-zero height |
| SpectrogramView.SpectrogramBuffer.Phase | src/ui/visualization/spectrogram.rs:272-281 | the scroll phase is in [0, 1) |
| SpectrogramView.SpectrogramBuffer.PushColumn | src/ui/visualization/spectrogram.rs:223-238 | returns the old write index, and the ring becomes PushRing of the normalised column |
| SpectrogramView.SpectrogramBuffer.PushColumns | src/ui/visualization/spectrogram.rs:174-179 | rebuild's refill loop: the ring becomes PushAll of the history, columns too short being skipped |
| SpectrogramView.SpectrogramBuffer.RecordColumn | src/ui/visualization/spectrogram.rs:195-204 | one accepted column of append is pushed, and its slot and stored values are queued |
| SpectrogramView.SpectrogramBuffer.PushAndRecord | src/ui/visualization/spectrogram.rs:195-204 | the ring becomes PushAll of the batch and the queue grows by NewUpdates of it |
| SpectrogramView.SpectrogramBuffer.ClearRing | src/ui/visualization/spectrogram.rs:169-173 | rebuild's reset: a zeroed ring with no columns, the new mapping and no timestamp |
| SpectrogramView.SpectrogramBuffer.Rebuild | src/ui/visualization/spectrogram.rs:147-183 | capacity is the history length as u32 and height the first non-zero column height; an empty size clears everything; otherwise the ring is PushAll of the history into an empty ring under the new mapping, and a non-empty result becomes the base image and timestamps now; nothing stays queued (RefilledFrom the history) |
| SpectrogramView.SpectrogramBuffer.Refill | src/ui/visualization/spectrogram.rs:166-182 | the mapping and display frequencies are rebuilt, the history is pushed into an empty ring, and a base image and timestamp exist exactly when a column landed |
| SpectrogramView.SpectrogramBuffer.Append | src/ui/visualization/spectrogram.rs:185-221 | nothing changes for an empty ring; otherwise the ring is PushAll of the batch, the uploads are queued unless the queue reaches max(capacity / 2, 16) and becomes a base image, and the timing follows IntervalEstimate |
| SpectrogramView.SpectrogramBuffer.UpdateTiming | src/ui/visualization/spectrogram.rs:206-217 | the last column time becomes now when any column landed, and the interval follows IntervalEstimate |
| SpectrogramView.SpectrogramBuffer.FlushIfFull | src/ui/visualization/spectrogram.rs:218-221 | a queue of max(capacity / 2, 16) uploads is replaced by a base image of the whole ring; afterwards the queue is always below that bound |
| SpectrogramView.RebuildCounters | src/ui/visualization/spectrogram.rs:170-179 | after a rebuild the count is the number of accepted history columns capped at the capacity, and the write index that number modulo the capacity |
| SpectrogramView.SpectrogramState.constructor | src/ui/visualization/spectrogram.rs:300-314 | default style, empty history, the given palette, the default sample rate, FFT size 4096, zoom 1 and pan 0.5 |
| SpectrogramView.SpectrogramState.RebuildBuffer | src/ui/visualization/spectrogram.rs:435-458 | nothing happens for an empty history or ring; otherwise the capacity is kept, the height becomes the history's first column height, and the ring holds the history pushed into an empty ring, queued as a base image when non-empty, with no uploads pending |
| SpectrogramView.SpectrogramState.SetFloorDb | src/ui/visualization/spectrogram.rs:324-337 | the floor becomes ClippedFloor of the request; when it moved by more than f32::EPSILON the ring is refilled from the history at the new floor (unless history or ring is empty, when the buffer is untouched); otherwise nothing changes |
| SpectrogramView.SpectrogramState.ApplySnapshot | src/ui/visualization/spectrogram.rs:347-379 | an empty, non-reset snapshot changes nothing; otherwise stream parameters are taken and the history becomes RetainedHistory; on reset or when the ring no longer fits, the ring is resized to the history length and holds the retained history pushed into an empty ring, with nothing queued but a base image; otherwise the new columns are pushed into the old ring |
| SpectrogramView.SpectrogramState.UpdateBuffer | src/ui/visualization/spectrogram.rs:371-378 | on reset or when NeedsRebuild holds, the ring is resized to the history length and refilled from the history with nothing queued but a base image; otherwise the ring is PushAll of the new columns |
| SpectrogramView.SpectrogramState.TakeColumns | src/ui/visualization/spectrogram.rs:355-369 | the history becomes RetainedHistory of the old history and the snapshot |
| SpectrogramView.SpectrogramState.ZoomAt | src/ui/visualization/spectrogram.rs:479-488 | zoom is scaled and clamped into [1, 32]; the pan is the re-centring target clamped to the pan bounds, so whenever those bounds allow, the texture point under the cursor stays under it |
| SpectrogramView.SpectrogramState.VisualParams | src/ui/visualization/spectrogram.rs:381-404 | nothing to draw exactly when the ring has no capacity, height or columns; otherwise the texture size, the buffer's column count and latest column (inside the width), the pending base and uploads, every palette stop and the background with their alpha scaled by the opacity clamped to [0, 1] |
| SpectrumView.Weight | src/ui/visualization/spectrum.rs:557-561 | the triangular weight r - abs(j - i) + 1 of a sample inside the window is at least 1 |
| SpectrumView.Weights | src/ui/visualization/spectrum.rs:557-561 | one weight per window index, each at least 1, so the division by the total weight is safe |
| SpectrumView.SmoothPass | src/ui/visualization/spectrum.rs:551-563 | one pass yields one level per point |
| SpectrumView.SmoothN | src/ui/visualization/spectrum.rs:551-564 | any number of passes yields one level per point |
| SpectrumView.SumOfWeights | src/ui/visualization/spectrum.rs:557-562 | the total weight of a non-empty window is at least 1 |
| SpectrumView.SmoothedAtConstant | src/ui/visualization/spectrum.rs:556-562 | the weighted window mean of equal levels is that level |
| SpectrumView.SmoothKeepsFlat | src/ui/visualization/spectrum.rs:547-567 | smoothing leaves a flat curve flat, whatever the radius and number of passes |
| SpectrumView.WindowSums | src/ui/visualization/spectrum.rs:557-561 | the inner loop computes the window's weighted sum and total weight |
| SpectrumView.SmoothedPoint | src/ui/visualization/spectrum.rs:555-562 | one point's new level is its window's weighted sum over the total weight |
| SpectrumView.SmoothPassInPlace | src/ui/visualization/spectrum.rs:551-564 | one in-place pass over a scratch copy: positions unchanged, levels become SmoothPass of the old levels |
| SpectrumView.Smooth | src/ui/visualization/spectrum.rs:547-567 | nothing changes for a zero radius, no passes or fewer than three points; otherwise positions are kept and the levels become `passes` smoothing passes of the old levels |
| SpectrumView.ReindexSpan | src/ui/visualization/spectrum.rs:569-578 | for more than one point the positions run from 0 to 1 in strictly increasing steps |
| SpectrumView.Reindex | src/ui/visualization/spectrum.rs:569-578 | each point's position becomes its index over n - 1 (0 for a single point); levels stay |
| SpectrumView.SearchBins | src/ui/visualization/spectrum.rs:507 | binary_search_by: every earlier bin is below the target; Ok names a bin equal to it, Err the insertion point before the first bin above it |
| SpectrumView.Interp | src/ui/visualization/spectrum.rs:500-518 | at or below the first bin the first magnitude, at or above the last bin the last one (0 when there are none) |
| SpectrumView.InterpAtBin | src/ui/visualization/spectrum.rs:500-518 | with strictly increasing bins, interpolating at a bin's own frequency gives that bin's magnitude |
| SpectrumView.InterpBracketed | src/ui/visualization/spectrum.rs:509-515 | strictly inside the bin range, the two neighbours the blend uses bracket the frequency |
| SpectrumView.FadedFor | src/ui/visualization/spectrum.rs:330-335 | a label still shown after fading frames has opacity at least 0.01 |
| SpectrumView.FadedForCompose | src/ui/visualization/spectrum.rs:330-335 | fading for a frames and then b more is the same as fading for a + b |
| SpectrumView.SixFramesHalve | src/ui/visualization/spectrum.rs:330-335 | six frames of 12% fading at least halve the opacity |
| SpectrumView.FadesAwayWithin42 | src/ui/visualization/spectrum.rs:330-335 | a label of opacity at most 1 that gets no new peak is gone within 42 frames |
| SpectrumView.FmtFreq | src/ui/visualization/spectrum.rs:580-588 | kHz exactly from 1000 Hz (value in thousands), otherwise Hz; no decimal from 10 kHz or in [100, 1000) Hz, one from 1 kHz or 10 Hz, two below |
| SpectrumView.SpectrumState.constructor | src/ui/visualization/spectrum.rs:169-179 | the default style's palette and toggles, no grid and no peak label |
| SpectrumView.SpectrumState.UpdateShowGrid | src/ui/visualization/spectrum.rs:188-193 | the toggle takes the value; hiding the grid drops its lines, showing keeps them |
| SpectrumView.SpectrumState.UpdateShowPeakLabel | src/ui/visualization/spectrum.rs:195-200 | the toggle takes the value; hiding drops the label, showing keeps it |
| SpectrumView.SpectrumState.SetPalette | src/ui/visualization/spectrum.rs:202-206 | six colours that differ from the current ones replace them; any other input leaves the palette |
| SpectrumView.SpectrumState.Peak | src/ui/visualization/spectrum.rs:344-349 | the label is visible exactly when labels are shown and one exists |
| SpectrumView.SpectrumState.FadePeak | src/ui/visualization/spectrum.rs:319-338 | a new peak over a shown label takes its text and place and fades in by 35% of the remaining opacity; a new peak alone becomes the label; no peak fades the label by 12% and drops it below 0.01 |
| StereometerView.Sanitized | src/ui/visualization/stereometer.rs:95-104 | persistence lands in [0, 0.9] and rotation in [-4, 4]; in-range settings pass unchanged and every other setting is copied as is |
| StereometerView.SanitizedIdempotent | src/ui/visualization/stereometer.rs:95-104 | applying the same settings twice gives what applying them once gives |
| StereometerView.SmoothCorrBetween | src/ui/visualization/stereometer.rs:163-164 | the 0.85-smoothed correlation lies between the previous trail head and the new reading |
| StereometerView.PushTrail | src/ui/visualization/stereometer.rs:179-182 | push_front then truncate to 32: the newest entry first, the older ones after it in order, at most 32 kept |
| StereometerView.CorrTrailStaysInRange | src/ui/visualization/stereometer.rs:163-182 | a trail of correlations in [-1, 1] fed a reading in [-1, 1] stays in [-1, 1] |
| StereometerView.Resized | src/ui/visualization/stereometer.rs:149 | Vec::resize: exactly n points, the old ones kept in place and new ones at the origin |
| StereometerView.BlendStaysInBox | src/ui/visualization/stereometer.rs:150-161 | blending with a persistence in [0, 1] keeps a point inside any box that holds both the old point and the new one |
| StereometerView.NoPersistenceShowsSnapshot | src/ui/visualization/stereometer.rs:152-154 | with no persistence each point is exactly the scaled snapshot point |
| StereometerView.StereometerState.constructor | src/ui/visualization/stereometer.rs:76-93 | no points, empty trails, the first eight default colours and the default settings |
| StereometerView.StereometerState.UpdateViewSettings | src/ui/visualization/stereometer.rs:95-104 | the exported settings become the sanitised input |
| StereometerView.StereometerState.SetPalette | src/ui/visualization/stereometer.rs:106-110 | the first min(8, len) colours are replaced by the input's, the rest stay |
| StereometerView.StereometerState.BlendPoints | src/ui/visualization/stereometer.rs:150-161 | one blended point per snapshot point, each the old point blended with the scaled new point |
| StereometerView.StereometerState.ApplySnapshot | src/ui/visualization/stereometer.rs:130-184 | an empty snapshot clears the points and leaves the trails; otherwise the points take the snapshot's length, each the resized old point blended with the scaled new one, and both trails get the smoothed reading pushed at the front |
| StereometerView.StereometerState.VisualParams | src/ui/visualization/stereometer.rs:186-200 | parameters exist exactly when there are at least two points, and then carry the points, palette and trails |
| VisualManager.DefaultEntries | src/ui/visualization/visual_manager.rs:288-299 | one entry per descriptor, in order, with ids 1, 2, … (all distinct), each of its descriptor's kind and disabled |
| VisualManager.BuildEntries | src/ui/visualization/visual_manager.rs:288-299 | the construction loop with its saturating u32 counter builds exactly the default entries and leaves the next id at the descriptor count + 1 |
| VisualManager.Slots | src/ui/visualization/visual_manager.rs:271-280 | one slot per entry, in order, carrying the entry's id, kind, enabled flag and metadata |
| VisualManager.SnapshotReflectsDescriptorDefaults | src/ui/visualization/visual_manager.rs:419-431 | a new manager's snapshot has one slot per descriptor, and each descriptor's kind has a disabled slot |
| VisualManager.ByKind | src/ui/visualization/visual_manager.rs:300-302 | the first entry of the kind; None exactly when no entry has it |
| VisualManager.IndexOfId | src/ui/visualization/visual_manager.rs:348-351 | position by id: the first entry with the id; None exactly when no entry has it |
| VisualManager.Swap | src/ui/visualization/visual_manager.rs:353 | slice::swap exchanges the two positions, keeps every other one, permutes the entries and keeps ids distinct |
| VisualManager.Applied | src/ui/visualization/visual_manager.rs:85-88 | applying settings sets the enabled flag when the settings carry one and keeps id, kind and metadata |
| VisualManager.ApplyAll | src/ui/visualization/visual_manager.rs:332-334 | every entry takes its kind's settings (the defaults for a kind without any), ids stay distinct |
| VisualManager.KindIds | src/ui/visualization/visual_manager.rs:336-341 | filter_map over by_kind: at most one id per listed kind, each the id of an existing entry |
| VisualManager.RemoveKeepsDistinct | src/ui/visualization/visual_manager.rs:373-374 | removing an entry keeps the remaining ids distinct and none of them is the removed id |
| VisualManager.InsertKeepsDistinct | src/ui/visualization/visual_manager.rs:373-374 | inserting an entry whose id is new keeps the ids distinct |
| VisualManager.PlaceAt | src/ui/visualization/visual_manager.rs:357-366 | one reorder step swaps the entry with the id to the position (nothing for an unknown id), permutes the entries and keeps earlier positions holding other ids |
| VisualManager.PlaceIds | src/ui/visualization/visual_manager.rs:357-366 | the reorder loop permutes the entries and keeps ids distinct; distinct present ids end up at the front in the listed order |
| VisualManager.EnabledIds | src/ui/visualization/visual_manager.rs:383-388 | at most one fed module per entry |
| VisualManager.SameIds | src/ui/visualization/visual_manager.rs:346-377 | permuted entries carry the same ids |
| VisualManager.VisualManager.constructor | src/ui/visualization/visual_manager.rs:288-299 | the default entries, and the next id one past them |
| VisualManager.VisualManager.Snapshot | src/ui/visualization/visual_manager.rs:306-310 | one slot per entry, in order, with the entry's id, kind and enabled flag |
| VisualManager.VisualManager.ModuleSettingsEnabled | src/ui/visualization/visual_manager.rs:311-317 | settings exist exactly for a kind with an entry; their enabled flag is the module's own, else the entry's |
| VisualManager.VisualManager.ApplyModuleSettings | src/ui/visualization/visual_manager.rs:318-323 | true exactly when an entry has the kind, and then only that first entry takes the settings; otherwise nothing changes |
| VisualManager.VisualManager.SetEnabledByKind | src/ui/visualization/visual_manager.rs:324-330 | the first entry of the kind takes the flag; every other entry, and everything for a missing kind, is unchanged |
| VisualManager.VisualManager.ApplyVisualSettings | src/ui/visualization/visual_manager.rs:331-345 | every entry takes its kind's settings, and the order only permutes them: with no kind ids the entries stay in place; two kind ids swap their entries; any other number of distinct kind ids puts those entries at the front in that order |
| VisualManager.VisualManager.Reorder | src/ui/visualization/visual_manager.rs:346-367 | the entries are only permuted; two present ids swap their entries and two ids with one missing change nothing; a longer or shorter list of distinct present ids puts them at the front in that order |
| VisualManager.VisualManager.RestorePosition | src/ui/visualization/visual_manager.rs:368-377 | an unknown id changes nothing; otherwise the entry is removed and reinserted at the target clamped to the last index, where it then sits |
| VisualManager.VisualManager.IngestSamples | src/ui/visualization/visual_manager.rs:378-389 | an empty block feeds nothing; otherwise exactly the enabled entries, in order, are fed |
| WaveformDsp.Normalized | src/dsp/waveform.rs:43-50 | sample rate at least 1, scroll speed in [10, 1000], column capacity in [512, 16384]; each field already in range is kept, so a configuration in range is returned unchanged |
| WaveformDsp.SamplesPerColumn | src/dsp/waveform.rs:51-53 | the sample rate over the scroll speed, rounded to the nearest integer |
| WaveformDsp.ClampExtrema | src/dsp/waveform.rs:94-99 | the f32::MAX / f32::MIN sentinels of an untouched accumulator read as 0; every other value is kept |
| WaveformDsp.EmptyAccum | src/dsp/waveform.rs:310-315 | emptied accumulators hold no samples in any channel |
| WaveformDsp.AddFrame | src/dsp/waveform.rs:319-324 | one interleaved frame adds one sample to every channel, keeping the channels equally full |
| WaveformDsp.AddFrameTracks | src/dsp/waveform.rs:319-324 | after any frames each channel's running min and max bound every sample and are each one of the samples or still the sentinel |
| WaveformDsp.WriteSlots | src/dsp/waveform.rs:289-301 | writing one column keeps the ring's size |
| WaveformDsp.WriteSlotsAt | src/dsp/waveform.rs:289-301 | only slot c * capacity + head of each channel c is written, with exactly that channel's value, and a channel with no samples is skipped |
| WaveformDsp.FlushValues | src/dsp/waveform.rs:289-296 | one value per channel, absent exactly for a channel with no samples |
| WaveformDsp.Flush | src/dsp/waveform.rs:286-316 | the head advances modulo the capacity, the count grows up to the capacity, the total grows with u64 saturation |
| WaveformDsp.StepFrame | src/dsp/waveform.rs:318-330 | one frame keeps the ring and accumulators well formed |
| WaveformDsp.StepCounts | src/dsp/waveform.rs:318-330 | below samples_per_column a frame only accumulates; the frame that reaches it flushes exactly once and empties the accumulators |
| WaveformDsp.TallyDivMod | src/dsp/waveform.rs:318-330 | the columns completed and samples left over are the quotient and remainder of len + k by samples_per_column |
| WaveformDsp.IngestTally | src/dsp/waveform.rs:318-330 | ingesting k frames completes the tallied number of columns and leaves the tallied remainder |
| WaveformDsp.IngestCounts | src/dsp/waveform.rs:318-330 | a flush happens exactly when the first channel reaches samples_per_column: k frames from len samples flush (len + k) / spc columns, advancing the head and count by that, and leave (len + k) mod spc samples |
| WaveformDsp.RingCapsAtCapacity | src/dsp/waveform.rs:549-567 | feeding a 512-column ring 522 columns' worth of one-channel samples leaves exactly 512 columns |
| WaveformDsp.SnapshotIndex | src/dsp/waveform.rs:346-360 | snapshot entry d reads channel d / count at ring slot (start + d mod count) mod capacity, always inside the ring |
| WaveformDsp.SnapshotValues | src/dsp/waveform.rs:332-365 | count columns per channel, channel-major |
| WaveformDsp.NewestSlot | src/dsp/waveform.rs:346-360 | right after a flush the last visible column, count - 1 past the oldest, is the slot the flush wrote |
| WaveformDsp.NewestColumnLast | src/dsp/waveform.rs:286-365 | oldest first: right after a flush, each channel's last snapshot column holds the extrema that flush wrote |
| WaveformDsp.Resize | src/dsp/waveform.rs:69-72 | Vec::resize: exactly n values, the old ones kept in place and new ones zero |
| WaveformDsp.Rebuilt | src/dsp/waveform.rs:277-284 | the rebuilt ring: storage of capacity × channels with the old values kept in place, no columns, nothing written |
| WaveformDsp.AccumulatorProgress | src/dsp/waveform.rs:367-371 | in [0, 1]: the first channel's fill over samples_per_column (at least 1), 0 without channels |
| WaveformDsp.PreviewOf | src/dsp/waveform.rs:373-393 | the preview carries the accumulator progress; empty while the first channel is empty, otherwise each channel's clamped extrema |
| WaveformDsp.ReadRing | src/dsp/waveform.rs:346-360 | the copy loop produces SnapshotValues of the ring |
| WaveformDsp.WriteHeadSlots | src/dsp/waveform.rs:289-301 | the write loop produces WriteSlots of the ring |
| WaveformDsp.WaveformProcessor.AllocateBuffers | src/dsp/waveform.rs:262-275 | ring storage resized to capacity × channels, accumulators emptied |
| WaveformDsp.WaveformProcessor.constructor | src/dsp/waveform.rs:235-256 | the normalised configuration, two channels, an empty ring and accumulators, nothing pending and the empty snapshot |
| WaveformDsp.WaveformProcessor.Rebuild | src/dsp/waveform.rs:277-284 | samples_per_column recomputed, the ring becomes Rebuilt of the old ring (empty, zero total), empty accumulators, nothing pending |
| WaveformDsp.WaveformProcessor.FlushAccumulated | src/dsp/waveform.rs:286-316 | the ring becomes Flush of the old ring and accumulators, the accumulators are emptied and changes are pending |
| WaveformDsp.WaveformProcessor.AccumulateFrame | src/dsp/waveform.rs:319-324 | the accumulators become AddFrame of the frame |
| WaveformDsp.WaveformProcessor.IngestFrame | src/dsp/waveform.rs:318-330 | the state becomes StepFrame of the frame; pending changes stay pending, and the ring changes only when changes become pending |
| WaveformDsp.WaveformProcessor.IngestFrameAt | src/dsp/waveform.rs:318-330 | frame f moves the state from f frames ingested to f + 1; the ring changes only when changes become pending |
| WaveformDsp.WaveformProcessor.IngestSamples | src/dsp/waveform.rs:318-330 | the state becomes IngestFrames of every complete frame of the block, a trailing partial frame ignored; the ring changes only when changes become pending |
| WaveformDsp.WaveformProcessor.SyncRingToSnapshot | src/dsp/waveform.rs:332-365 | the snapshot gets the channel and column counts, both extrema read oldest first (SnapshotValues of the ring), and the column spacing 1 / scroll speed; nothing remains pending |
| WaveformDsp.WaveformProcessor.Reconfigure | src/dsp/waveform.rs:404-413 | a changed channel count or sample rate (beyond f32::EPSILON) takes the new values, recomputes samples_per_column and leaves Rebuilt of the old ring with empty accumulators; otherwise nothing changes |
| WaveformDsp.WaveformProcessor.PublishProgress | src/dsp/waveform.rs:419-422 | the preview and scroll position (total columns written plus the accumulator progress) are published |
| WaveformDsp.WaveformProcessor.IngestAndPublish | src/dsp/waveform.rs:415-424 | ingests the block; when changes were pending or the ring changed, the snapshot shows the ring (channels, columns, SnapshotValues of both extrema, spacing), otherwise it keeps its old ring fields; nothing stays pending; the scroll position and preview are published |
| WaveformDsp.WaveformProcessor.ProcessFrames | src/dsp/waveform.rs:404-424 | without a change the frames are ingested into the old state; after a change of channel count or sample rate they are ingested into Rebuilt of the old ring with empty accumulators; the snapshot then shows the ring whenever columns were flushed (or were pending), otherwise keeps its ring fields; scroll position and preview are published |
| WaveformDsp.WaveformProcessor.ProcessBlock | src/dsp/waveform.rs:399-425 | no snapshot exactly when the block has no whole frame, and then nothing changes; otherwise the channel count and sample rate (each at least 1) are taken, the frames are ingested into the old state or, after a reconfigure, into Rebuilt of the old ring with empty accumulators; the returned snapshot shows the ring whenever columns were flushed (or were pending) and carries the scroll position and preview |
| WaveformDsp.WaveformProcessor.Reset | src/dsp/waveform.rs:427-430 | the empty snapshot and an empty ring, configuration kept |
| WaveformDsp.WaveformProcessor.UpdateConfig | src/dsp/waveform.rs:434-444 | the configuration becomes the normalised input; an unchanged one keeps the ring, a changed one rebuilds it |
| WaveformView.DesiredColumns | src/ui/visualization/waveform.rs:135 | one column per two pixels, rounded up, within [1, 16384]: inside the range, the fewest columns that cover the width |
| WaveformView.SyncCapacity | src/ui/visualization/waveform.rs:38-48 | the column capacity becomes the desired count clamped to [512, 16384] (kept exactly when already in range); sample rate and scroll speed are untouched |
| WaveformView.SyncCapacityIdempotent | src/ui/visualization/waveform.rs:38-48 | syncing twice with the same desired count is syncing once |
| WaveformView.Project | src/ui/visualization/waveform.rs:221-252 | no columns or a short vector gives the empty snapshot; otherwise the channel count and every column vector follow the channel mode, columns and timing are kept, and a preview that does not cover every channel is dropped |
| WaveformView.ProjectKeepsConsistent | src/ui/visualization/waveform.rs:221-252 | projecting a snapshot the view can draw gives one it can draw |
| WaveformView.LastPositive | src/ui/visualization/waveform.rs:260-262 | the reverse search: 0 exactly when no value is positive, otherwise a positive value of the channel after which none is positive |
| WaveformView.FreqHint | src/ui/visualization/waveform.rs:255-264 | never negative; 0 without columns or for a channel past the data; otherwise the newest positive frequency of that channel's columns, 0 when none |
| WaveformView.TailIndices | src/ui/visualization/waveform.rs:150-162 | ch × (cols - start) source positions, each inside the data |
| WaveformView.ChannelIndices | src/ui/visualization/waveform.rs:153-154 | columns start to the last of the channel beginning at base, in order |
| WaveformView.TailIndexAt | src/ui/visualization/waveform.rs:150-162 | entry ci × vis + j of the tail is column start + j of channel ci |
| WaveformView.PairAt | src/ui/visualization/waveform.rs:155-159 | a column's pair is its two extrema ordered, min first |
| WaveformView.Pairs | src/ui/visualization/waveform.rs:150-162 | one ordered pair per listed column, in order |
| WaveformView.Colors | src/ui/visualization/waveform.rs:163-172 | one gradient colour per listed column's frequency, in order |
| WaveformView.ChannelPairs | src/ui/visualization/waveform.rs:153-160 | the inner loop produces the pairs of one channel's visible columns |
| WaveformView.ChannelColors | src/ui/visualization/waveform.rs:166-171 | the inner loop produces the colours of one channel's visible columns |
| WaveformView.TailPairs | src/ui/visualization/waveform.rs:150-162 | the outer loop produces the pairs of the visible tail, channel after channel |
| WaveformView.TailColors | src/ui/visualization/waveform.rs:163-172 | the outer loop produces the colours of the visible tail, in the same order as its pairs |
| WaveformView.PreviewAt | src/ui/visualization/waveform.rs:185-194 | a preview column's extrema are ordered and clamped to [-1, 1] |
| WaveformView.VisibleTail | src/ui/visualization/waveform.rs:150-162 | exactly the newest min(desired, columns) of each channel are emitted: entry ci × vis + j is column cols - vis + j of channel ci, with min at most max |
| WaveformView.WaveformState.constructor | src/ui/visualization/waveform.rs:96-105 | an empty snapshot, the default palette and channel mode, 4096 columns wanted, empty caches |
| WaveformView.WaveformState.ApplySnapshot | src/ui/visualization/waveform.rs:107-109 | the held snapshot is the incoming one projected onto the current channel mode |
| WaveformView.WaveformState.SetChannelMode | src/ui/visualization/waveform.rs:110-115 | a different mode is taken and re-projects the held snapshot; the same mode changes nothing |
| WaveformView.WaveformState.SetPalette | src/ui/visualization/waveform.rs:119-122 | a different palette replaces the held one; the instance key is renewed either way |
| WaveformView.WaveformState.EmitPreview | src/ui/visualization/waveform.rs:180-199 | one preview column per channel when the preview is usable, none otherwise |
| WaveformView.WaveformState.Visual | src/ui/visualization/waveform.rs:130-219 | nothing for a width of zero or less; otherwise the desired columns are recorded, and parameters exist exactly for a consistent snapshot, carrying the visible tail's pairs and colours (also cached), and the preview with its progress clamped to [0, 1] or none |
| LoudnessDsp.LoudnessProcessor.FeedBlock | src/dsp/loudness.rs:174-197 | after the peaks are zeroed, every channel's window holds its old contents followed by the squares of that channel's samples over the whole frames, its peak is the largest magnitude among them, and its published readings are the loudness of the window and the dB value of the peak |
| LoudnessDsp.LoudnessProcessor.PushNextFrame | src/dsp/loudness.rs:179-185 | one more whole frame joins every channel's window and the peaks become the maxima over one more frame |
| LoudnessDsp.LoudnessProcessor.PushFrameChannel | src/dsp/loudness.rs:180-184 | one channel of a frame: its square joins that channel's window and its peak rises to the sample's magnitude, every other channel left alone |
| LoudnessView.LoudnessState.SetModes | src/ui/visualization/loudness.rs:116-119 | the left and right meter modes become the given ones |
| LoudnessView.LoudnessState.SetPalette | src/ui/visualization/loudness.rs:129-131 | the palette becomes the given colours and the state stays well formed |
| PaletteEditor.Editor.SetShowRamp | src/ui/app/visuals/settings/palette.rs:59-61 | the ramp flag becomes the given one |
| PaletteEditor.Editor.SetLabelOverrides | src/ui/app/visuals/settings/palette.rs:74-76 | the label overrides become the given list |
| PaletteEditor.ParseHex2RoundTrip | src/ui/app/visuals/settings/palette.rs:321-328 | every byte written as two upper-case hexadecimal digits reads back as the same byte |
| RegistryTypes.MetadataDefaults.SetSink | src/audio/pw_registry/types.rs:342-364 | the sink slot takes the new value and the change it reports is exactly whether the defaults changed |
| RegistryTypes.MetadataDefaults.SetSource | src/audio/pw_registry/types.rs:342-364 | the source slot takes the new value and the change it reports is exactly whether the defaults changed |
| RegistryTypes.FirstNode | src/audio/pw_registry/types.rs:200-214 | the result is the first node satisfying the test, and no result means no node satisfies it |
| Musical.NameIndexOfNoteName | src/util/audio/musical.rs:6-8 | the twelve note names are distinct: each name is found at its own index |

## Left out

- PipeWire threads, main loops, listeners, proxies and link or metadata creation (`pw_registry/runtime.rs`, `pw_virtual_sink.rs`, the thread mains in `pw_registry.rs` and `pw_loopback.rs`): foreign calls and I/O. Link creation is a parameter `create` that says whether PipeWire accepted a link.
- `registry_monitor.rs` and `main.rs`: routing plumbing around channels and an external router.
- Floating point: `f32` rounding, NaN and infinities are not modelled. Values are exact reals, and `is_finite` checks are dropped or become parameters.
- Transcendental functions and the FFT are parameters, as is the Planck-Bessel window taper; the window numerics themselves are not modelled:
  - `log10`, `log2`, `exp2`, `powf` and `hypot`;
  - the spectrogram's FFT and reassignment arithmetic.
- The waveform processor's FFT frequency and centroid analysis is not modelled. Its per-column frequency hint is a parameter.
- JSON parsing in `parse_metadata_name` is a parameter returning a JSON value. The error message it prints is left out.
- `HashMap` iteration order is unspecified in the source, so lookups that return the first match in iteration order are stated as returning some match:
  - reconciliation of a default target by name;
  - `resolve_default_sink_node`;
  - the final fallback of `pair_ports_by_channel`.
- PipewireGraph.PairPortsByChannel: when no same-channel or channel-less target is left, the remaining targets are taken in the order they were first queued. The source takes them in `HashMap` order.
- Clocks: `Instant::now` becomes a `now` parameter.
- GPU and iced rendering, vertex building, clipping, wgpu resources and widget views are left out because they are output only:
  - the spectrum scales and `build_points`;
  - `color_to_rgba`;
  - the loudness meter's vertex and fill-quad building (the bar values and fill levels it draws are modelled);
  - the waveform render key.
- SpectrogramRender.ColumnBufferPool.Acquire: buffers are modelled by their capacities only, not their contents or allocation.
- Spectrogram view `set_palette`, `clear_pending` and `frequency_at_y_zoomed` are not modelled. The first two only copy or clear fields; the third is floating-point zoom arithmetic.
- SpectrogramDsp.FiniteDiff: a second derivative of a single sample is excluded by its precondition. The source indexes past the end there.
- The stereometer's exponential scale with a zero scale range divides by zero in `f32` and yields non-finite coordinates. The model maps such a point to the origin.
- StereometerView.StereometerState.constructor: the default palette table has nine colours while the state holds eight. The model takes the first eight.
- The stereometer's `export_settings` is modelled by the `Settings()` function, which returns the settings record it copies.
- The biquad and EMA stereometer DSP, the oscilloscope processor and view, and the LUFS meter blending are left out because they are floating-point filters.
- LoudnessView.LoudnessState.ApplySnapshot: the view reads short-term, RMS and true-peak fields that the loudness processor's snapshot does not carry. The view therefore takes its own snapshot record.
- PaletteEditor.PositionUpdate: for an empty palette and a non-zero index, the source computes `n - 1` on `usize`, which underflows (a panic in a debug build, a wrap in a release build). The model's integers are exact, and the update is rejected as it is in a release build.
- The palette editor's gradient-bar widget (`palette.rs` 429-456) is not modelled. It only turns a handle drag into a position event and a wheel turn into a spread event (the current spread plus 0.2 per step, clamped to [0.2, 5]); PaletteEditor.PositionUpdate and PaletteEditor.SpreadUpdate model how those events are applied.
- SpectrumView.FadesAwayWithin42: states that a label is gone within 42 frames, a round bound proved by halving every six frames. It is not the tightest bound.
- RenderSpectrum.SampleMax: requires a non-empty line. The only caller draws at least one point.
- RenderCommon.DecimateLine: bucket bounds are exact rationals rather than `f32` products.
- VisualManager.EnabledIds: states only that there are no more ids than entries. The order and membership follow from the definition and from EnabledIdsSnoc.
- Config visual toggles and the writes of settings into the persisted store (decorations, bar, background palette) are persistence glue, so they are not modelled.
- Disk persistence and serde (`settings/persistence.rs`, `settings/data.rs`, `settings.rs`) are I/O.
- The Oklch colour mixing in `theme.rs` is floating-point colour science.
- Case conversion covers ASCII only. Examples with long literal strings, such as media classes, are stated on short strings instead.
- Module glue (`dsp.rs`, `ui.rs`, `audio.rs`, `util/pipewire.rs`, `util/pipewire/dict.rs`) and the other widget and window code carry no logic of their own.

## Findings

| source | as written | input that shows it | evidently intended | confidence | as-written member | corrected member |
|---|---|---|---|---|---|---|
| src/dsp/spectrogram.rs:941-977 | `update_config` returns from its FFT-rebuild branch before it assigns `hist_cap` from the new history length | a config change that alters the FFT size and shortens the history length together | the history capacity always follows the new history length | high (not executed) | SpectrogramDsp.StaleHistoryCap | SpectrogramDsp.SpectrogramProcessor.UpdateConfig |
| src/audio/pw_registry/types.rs:385-387 | `clear_metadata` passes a no-op mutation to `clear_slots`, so a matching target that names a node or has a name survives, its `metadata_id` still set, while a change is reported | a sink slot announced by metadata object 5 with a name, then `clear_metadata(5)` | the slot announced by that metadata object is emptied, as the earlier registry does (`pw_registry.rs` 339-351) | medium (not executed) | RegistryTypes.ClearMetadataKeepsTarget | RegistryTypes.ClearMetadataSlot |
| src/util/audio/musical.rs:34 | the octave is `midi / 12 - 1` with Rust's truncating division | MIDI -1 and MIDI 11 are both named B-1 | the octave is the floor of `midi / 12` minus one, so MIDI -1 is B-2 | medium (not executed) | Musical.AsWrittenOctaveClash | Musical.FromMidi |
