# ADS-B log analyzer: record ingestion, summary and interval histograms

This project models the record-ingestion core of a Mode-S/ADS-B log analyzer
and proves properties of it in Dafny. The analyzer reads a log of timestamped
hex messages one line at a time. It routes each decoded record by downlink
format (DF) and type code (TC) into per-aircraft containers:

- first and last sighting;
- per-category arrival-time lists;
- altitude, speed, position, course and angle series;
- autopilot settings, call signs and mode sets;
- the CPR (compact position reporting) even/odd slot pair;
- the squawk-change episode state.

Afterwards it prints a summary table and opens a viewer. The viewer shows
message-interval histograms and steps through aircraft and plot modes.

Modules, one per source file or component:

- `DictData`: the containers of `dict_data.py` and the `MODE_MAP` table.
  - `StoreState` is the value of all containers at one moment.
  - `class Store` holds them as fields that its methods update in place. Each method states its new state as a `StoreState` update.
- `Parsing`: `parse_ads_b_line` and the field getters of `parsing.py`.
  - The external decoder is abstract. Each record arrives as a `Decoded` value whose fields are `Option`s, where `None` stands for "raised or returned nothing".
- `MainLoop`: the `__main__` loop of `main.py`.
  - `Step`, `LineStep` and `Ingested` specify one record, one line and a whole log.
  - `ProcessRecord` and `Run` perform the same updates on a `Store` in place and are proved to agree with them.
  - Lemmas cover each record kind: CPR pairing, the episode window, the range filters and routing. They also prove that the store only grows, and that every container stays keyed by listed addresses.
- `Summary`: the summary table of `main.py`, with its rows, flags and aircraft filter.
- `IcaoPlots`: the interval histogram, the nearest-position search, and the `IcaoPlots` viewer's navigation. The viewer is a class.
- `Prog1`: the earlier single-file variant `prog1.py`. It covers:
  - its ingestion loop, written as a method with `continue`s;
  - its altitude-interval clipping histogram;
  - its `IcaoGraphs` navigation.

  It also proves that the two programs evolve their shared containers identically on every record except two kinds, which `Prog1.Diverges` names:
  - a GNSS altitude (TC 20-22) in range, which only `main.py` stores;
  - a TC 19 record whose velocity does not decode but whose altitude difference does, which only `prog1.py` stores.

  `prog1.py` repeats `parse_ads_b_line` and the `get_*` filters of `parsing.py` word for word (prog1.py:25-186), except `get_altitude` (TC 9-18 only) and the missing `get_track_angle`. The model therefore reuses the `Parsing` functions and adds `Prog1.GetBaroAltitude`.
- `Ordering`, `Wrappers`: code-point string order, `sorted`, `np.unique`, `Option`.

External behaviour is passed in as parameters:

- the decoder's answers (`Decoded`);
- the CPR position resolver (`Resolver`, called as `position(msg0, msg1, t0, t1)`);
- the timestamp parser (`toFloat`, standing for `np.float64`).

Points where the code behaves differently from what one might expect, which the model follows:

- **CPR slots.** When both slots are full but the halves are 10 s or more apart, the code keeps both halves. Only a pair less than 10 s apart empties the slots (main.py:105-110); a pair too far apart is not cleared after the attempt.
- **Emergency squawks.** A status message classified as an emergency goes to the emergency series and still takes part in squawk-change detection and the `last_mode_a` update (main.py:194-207); an emergency does not stop the processing of the record.
- **Episode window.** An episode opens at every change to a non-reserved code, and a squawk counts as a mode change only within 24.5 s of the latest opening (main.py:199-207, proved as `MainLoop.EpisodeEffect`). For codes 1200@0, 1200@5, 1201@10, 1200@15, 1200@40:
  - episodes open at 10 and 15;
  - the mode-change series is [10, 15];
  - 40 is not counted.
- **Empty `IcaoGraphs`.** The `prog1.py` viewer returns from its constructor before choosing plot modes when it has no aircraft (prog1.py:199-201). The `icao_plots.py` viewer does not.

## Model

| member | source | states |
|---|---|---|
| `Ordering.SortedList` | main.py:247 | `sorted(list(s))` for a set of addresses lists every member exactly once, strictly ascending in code-point order |
| `Ordering.Sort` | icao_plots.py:609 | `sorted(timestamps)` is ascending and a permutation of its input |
| `Ordering.Unique` | prog1.py:452 | `np.unique` is strictly ascending and holds exactly the values of its input |
| `DictData.TranslateMode` | parsing.py:123 | `MODE_MAP.get(m, m)`: a known code becomes its abbreviation, any other code passes through unchanged |
| `DictData.ModeMapKeys` | dict_data.py:4-12 | the table has exactly the seven codes U / M F P T C |
| `DictData.ModeMapInjective` | dict_data.py:4-12 | no two codes share an abbreviation |
| `DictData.Append` | dict_data.py:16-17 | `defaultdict(list)` append: the key's series gains `x` at the end; every other key's series is unchanged; an unseen key reads as empty |
| `DictData.Store.constructor` | dict_data.py:15-60 | all containers start empty |
| `DictData.Store.AddArrival` | dict_data.py:33-60 | appending to one category's arrival list of one address changes only that list |
| `DictData.Store.AddIcao` | dict_data.py:24 | `adsb_icao_list.add(aa)`: set insertion, nothing else changes |
| `DictData.Store.SetTimes` | dict_data.py:15 | writes one entry of `icao_times`, nothing else changes |
| `DictData.Store.AppendAltitude` | dict_data.py:16 | appends to one address's altitude series only |
| `DictData.Store.AppendSpeed` | dict_data.py:17 | appends to one address's speed series only |
| `DictData.Store.AppendPosition` | dict_data.py:25 | appends to one address's position series only |
| `DictData.Store.AppendCourse` | dict_data.py:26 | appends to one address's course series only |
| `DictData.Store.AppendTrackAngle` | dict_data.py:29 | appends to one address's track-angle series only |
| `DictData.Store.AppendGsAngle` | dict_data.py:30 | appends to one address's ground-speed angle series only |
| `DictData.Store.AppendAirspdAngle` | dict_data.py:31 | appends to one address's airspeed angle series only |
| `DictData.Store.AppendSelectedAltitude` | dict_data.py:19 | appends to one address's selected-altitude series only |
| `DictData.Store.AppendAltitudeDifference` | dict_data.py:20 | appends to one address's altitude-difference series only |
| `DictData.Store.AppendBaroCorrection` | dict_data.py:21 | appends to one address's pressure-setting series only |
| `DictData.Store.SetCallsign` | dict_data.py:18 | overwrites one address's call sign only |
| `DictData.Store.UnionModes` | main.py:216-218 | the address's mode set becomes the union of the old set (empty if none) and the new modes |
| `DictData.Store.MarkSelectedAlt` | dict_data.py:22 | marks one address as having a selected altitude |
| `DictData.Store.MarkGnss` | dict_data.py:23 | marks one address as GNSS-equipped |
| `DictData.Store.SetSlots` | dict_data.py:27 | replaces one address's CPR slot pair only |
| `DictData.Store.SetLastModeA` | dict_data.py:45 | records one address's last squawk only |
| `DictData.Store.SetEpisodeStart` | dict_data.py:46 | records one address's episode start only |
| `Parsing.TokensWellFormed` | parsing.py:7 | `split()` yields only non-empty tokens without whitespace |
| `Parsing.TokensConcat` | parsing.py:7 | the tokens glued together are exactly the line with its whitespace removed |
| `Parsing.Upper` | parsing.py:21 | `upper()` on ASCII text: the length is kept, each lower-case ASCII letter becomes its capital and every other character is kept |
| `Parsing.RemoveSpacesJoin` | parsing.py:21-22 | joining space-free tokens with spaces and then removing the spaces gives their concatenation |
| `Parsing.RemoveSpacesUpper` | parsing.py:21-22 | upper-casing and removing spaces commute |
| `Parsing.ParseLine` | parsing.py:6-27 | None for fewer than two tokens or a non-numeric first token; otherwise the timestamp is the first token's value; a returned message is non-empty upper-case hex and equals the spaced form without spaces |
| `Parsing.ParseLineCharacterised` | parsing.py:16-25 | a line parses exactly when it has at least two tokens, a numeric first token, and a non-empty hex payload; the payload starts after a `DF`/`UF` marker when three or more tokens follow it, else at the second token |
| `Parsing.DfMarkerAloneIsPayload` | parsing.py:16-19 | for every line of exactly two tokens with a numeric first token: a second token `DF` is not skipped but is itself the (hex) payload, and a second token `UF` is a non-hex payload, so the line is rejected |
| `Parsing.GetAltitude` | parsing.py:30-42 | None unless DF 17/18 and TC 9-18 or 20-22; then the decoder's altitude |
| `Parsing.GetVelocity` | parsing.py:45-58 | None unless DF 17/18, TC 19 and a decoded velocity; then its speed |
| `Parsing.GetCourse` | parsing.py:61-73 | None unless DF 17/18, TC 19 and a decoded velocity; then its heading |
| `Parsing.GetTrackAngle` | parsing.py:75-107 | an angle only for DF 17/18, TC 19, speed type `GS`; None otherwise |
| `Parsing.ModeImage` | parsing.py:123 | the mode set is exactly the image of the raw modes under `MODE_MAP.get(m, m)` |
| `Parsing.GetSelectedAltitude` | parsing.py:110-127 | only TC 29 of DF 17/18; a result exactly when the value lies in [-2000, 50000]; modes are the translated raw modes |
| `Parsing.GetAltitudeDifference` | parsing.py:130-146 | only TC 19 of DF 17/18; a result exactly when the value lies in [-2500, 2500] |
| `Parsing.GetBaroCorrection` | parsing.py:149-169 | only TC 29 of DF 17/18; a result exactly when the value lies in [800, 1100] |
| `Parsing.KeepAlnumAllAlnum` | parsing.py:184 | the cleaned call sign holds only letters and digits |
| `Parsing.KeepAlnumSubsequence` | parsing.py:184 | the cleaned call sign is a subsequence of the decoded one |
| `Parsing.KeepAlnumCounts` | parsing.py:184 | every letter and digit is kept as often as it occurs; every other character is dropped |
| `Parsing.GetCallsign` | parsing.py:172-187 | a result exactly for DF 17/18, TC 1-4 and a non-empty decoded call sign; it is the decoded call sign with every non-alphanumeric character removed, hence alphanumeric and a subsequence of the decoded one |
| `MainLoop.CprStep` | main.py:97-110 | the message overwrites the slot of its parity; if the other slot holds a half less than 10 s away, the resolver is called with the even half first and both slots are emptied; otherwise both halves are kept and nothing is resolved |
| `MainLoop.EpisodeStep` | main.py:199-207 | an episode opens at `t` exactly when a previous code exists, differs, and the new code is not 1000/7500/7600/7700; the message counts as a mode change exactly when a start exists and `t - start <= 24.5` |
| `MainLoop.AirbornePositionUpdate` | main.py:90-110 | TC 9-18 in place equals the specification `AirbornePosition` |
| `MainLoop.IdentificationUpdate` | main.py:113-117 | TC 1-4 in place equals `Identification` |
| `MainLoop.VelocityUpdate` | main.py:119-151 | TC 19 in place equals `VelocityMessage`, including the early exit when the velocity does not decode |
| `MainLoop.VelocityFieldsInPlace` | main.py:135-151 | the filtered TC 19 fields in place equal `VelocityFieldsUpdate` |
| `MainLoop.GnssPositionUpdate` | main.py:154-160 | TC 20-22 in place equals `GnssPosition` |
| `MainLoop.SquawkUpdate` | main.py:194-207 | the emergency/status split, the episode window and the last-code update in place equal `Squawk` |
| `MainLoop.StatusUpdate` | main.py:162-207 | TC 28 in place equals `StatusMessage` |
| `MainLoop.TargetStateUpdate` | main.py:209-223 | TC 29 in place equals `TargetStateMessage` |
| `MainLoop.OperationalStatusUpdate` | main.py:225-232 | TC 31 in place equals `OperationalStatus` |
| `MainLoop.DispatchUpdate` | main.py:86-232 | the type-code dispatch in place equals `Dispatch` |
| `MainLoop.ProcessRecord` | main.py:47-232 | one parsed record in place equals `Step`: DF routing, the DF 11 branch, the filter, the sightings, then the dispatch |
| `MainLoop.Run` | main.py:35-45 | the whole loop in place equals `Ingested` over the lines in order, skipping lines that do not parse |
| `MainLoop.Df11OnlyAcquisition` | main.py:52-58 | a DF 11 record appends its time to its address's acquisition list, whatever the filter, and changes nothing else |
| `MainLoop.OtherFormatsIgnored` | main.py:47-62 | a record whose DF does not decode or is not 11, 17 or 18 changes nothing |
| `MainLoop.RejectedUnchanged` | main.py:64-71 | a DF 17/18 record without a decoded address, or from an aircraft other than the filtered one, changes nothing |
| `MainLoop.DispatchKeepsSightings` | main.py:86-232 | the type-code dispatch never changes the address list or the first/last sightings |
| `MainLoop.SeenTimes` | main.py:73-79 | an accepted record lists its address; its last-seen becomes `t`; its first-seen is set only on its first record; other addresses' times are untouched |
| `MainLoop.NoTypeCodeOnlyTouches` | main.py:81-84 | a record whose type code does not decode changes only the address list and the times |
| `MainLoop.AirbornePositionEffect` | main.py:90-110 | TC 9-18: the arrival is recorded; the barometric altitude is appended exactly when it lies in [-1000, 50000]; a pair less than 10 s apart appends at most one position stamped `t` and empties the slots; otherwise the message waits in its slot and no position is added |
| `MainLoop.GnssAltitudeEffect` | main.py:154-160 | TC 20-22: the GNSS-tagged altitude is appended, and the address marked GNSS-equipped, exactly when it lies in [-1000, 50000] |
| `MainLoop.VelocityDecodeFailure` | main.py:119-128 | a TC 19 velocity that does not decode records only the velocity arrival |
| `MainLoop.VelocityFieldsFrame` | main.py:135-151 | the filtered TC 19 fields touch neither the arrival lists nor the subtype angle series |
| `MainLoop.VelocityAngleRouting` | main.py:119-133 | subtype 1 feeds the ground-speed angle series, subtype 3 the airspeed one; the arrival is always recorded |
| `MainLoop.GroundSpeedFilter` | main.py:135-137 | the ground speed is appended exactly when it lies in [0, 1000] |
| `MainLoop.CallsignEffect` | main.py:113-117 | TC 1-4: the stored call sign changes only to a non-empty alphanumeric one, which replaces the old one |
| `MainLoop.StatusSplit` | main.py:162-197 | TC 28: a resolution advisory goes only to the TCAS series; no squawk means no change; otherwise exactly one of the emergency and status series gains `t` |
| `MainLoop.EpisodeEffect` | main.py:199-207 | the episode start becomes `t` exactly when the code changes to a non-reserved one; `t` joins the mode-change series exactly when `t - start <= 24.5`; the last code is always updated |
| `MainLoop.EmergencyStillTracked` | main.py:194-207 | an emergency message updates the episode state and the mode-change series exactly as a status message with the same code does |
| `MainLoop.TargetStateEffect` | main.py:209-218 | TC 29: the arrival is recorded; a selected altitude appends its value, marks the address and sets its mode set to exactly the union of the old set (empty if none) and the new modes, leaving other addresses' mode sets alone; without one none of them changes |
| `MainLoop.TargetStateBaroEffect` | main.py:220-222 | TC 29: the pressure setting is appended exactly when it decodes and lies in [800, 1100] hPa; otherwise the pressure-setting series are unchanged |
| `MainLoop.OperationalStatusRouting` | main.py:225-232 | TC 31 subtype 0 feeds the airborne, subtype 1 the surface operational-status series; nothing else changes |
| `MainLoop.DispatchGrows` | main.py:86-232 | the dispatch loses no address, series entry, mode or flag |
| `MainLoop.StepGrows` | main.py:47-232 | one record loses no address, series entry, mode or flag, and never changes a first sighting |
| `MainLoop.IngestedGrows` | main.py:35-232 | the same for a whole log: every container only grows |
| `MainLoop.DispatchWithin` | main.py:86-232 | the dispatch creates no key outside a set of addresses that holds the record's own address: no series, flag, call sign, mode set, CPR slot pair, last squawk or episode start appears under a new foreign address |
| `MainLoop.DispatchOthersUnchanged` | main.py:86-232 | the dispatch writes only under the record's own address: for every other address its listing, sightings, arrival lists, series, call sign, modes, flags, CPR slots, last squawk and episode start are unchanged |
| `MainLoop.StepOthersUnchanged` | main.py:47-232 | a whole record, DF 11 included, changes nothing stored for any address other than its own |
| `MainLoop.StepConsistent` | main.py:52-79 | one record keeps the store consistent: the listed addresses are exactly those with sighting times; every series, flag, call sign, mode set, CPR slot pair, last squawk and episode start is keyed by a listed address (the acquisition lists excepted); with a filter only the filtered address is listed |
| `MainLoop.IngestedConsistent` | main.py:35-79 | the store after any log, from empty, is consistent |
| `Summary.RowOf` | main.py:250-262 | a row carries the address's sightings and its stored call sign, or "N/A" when none is stored; coordinates, course, altitude difference and pressure setting read yes exactly when that series is non-empty; selected altitude and GNSS read yes exactly when the address is marked |
| `Summary.Listed` | main.py:247-249 | the loop skips exactly the addresses without sighting times |
| `Summary.Table` | main.py:247-266 | every row belongs to a listed address with sighting times |
| `Summary.MakeReport` | main.py:234-268 | with a filter whose aircraft was never accepted the run reports "not found"; otherwise it lists the table and the total number of listed aircraft |
| `Summary.TableComplete` | main.py:247-268 | on a consistent store the table has one row per listed aircraft, in strictly ascending address order, matching the printed total |
| `Summary.FilteredReport` | main.py:234-237 | under a filter the report is "not found" exactly when no record was accepted, and otherwise a single row for the filtered aircraft |
| `Summary.PositionsShown` | main.py:258 | every aircraft with a resolved position appears with coordinates "yes" |
| `Summary.RowGrows` | main.py:255-262 | later records never turn a "yes" into "no" and never change a first sighting |
| `IcaoPlots.Diffs` | icao_plots.py:610 | `np.diff(ts) * 1000` has one entry fewer than a non-empty input, and none negative when the input is sorted |
| `IcaoPlots.NonNegative` | icao_plots.py:611 | keeps exactly the non-negative intervals, and all of them when none is negative |
| `IcaoPlots.Intervals` | icao_plots.py:609-611 | every interval is non-negative |
| `IcaoPlots.IntervalCount` | icao_plots.py:609-611 | n timestamps give exactly n - 1 intervals (none is dropped, because the input is sorted) |
| `IcaoPlots.BandOf` | icao_plots.py:617-619 | left is `x < low`, middle `low <= x <= high`, right `x > high` |
| `IcaoPlots.InBand` | icao_plots.py:617-619 | a band's selection holds exactly the intervals in that band |
| `IcaoPlots.BandsPartition` | icao_plots.py:617-619 | the three bands are disjoint and together are the intervals: counts add up and multisets combine to the whole |
| `IcaoPlots.Minimum` | icao_plots.py:653 | `intervals.min()` is an interval and no interval is smaller |
| `IcaoPlots.Maximum` | icao_plots.py:654 | `intervals.max()` is an interval and no interval is larger |
| `IcaoPlots.Params` | icao_plots.py:504-605 | every mode's deviation is positive and below its center, so the band is a positive interval |
| `IcaoPlots.EveryCategoryShown` | icao_plots.py:504-605 | every arrival list the loop collects has a histogram mode |
| `IcaoPlots.ModeOf` | icao_plots.py:504-605 | a name that selects a histogram is that histogram's name |
| `IcaoPlots.ModeNameRoundTrip` | icao_plots.py:504-605 | each histogram mode is selected by its own name |
| `IcaoPlots.ModeListsSeparate` | icao_plots.py:66-73 | every histogram-list entry selects a histogram, no graph-list entry does |
| `IcaoPlots.NoDataIffShort` | icao_plots.py:608-682 | "no data" exactly when the series has fewer than two timestamps |
| `IcaoPlots.DrawnShape` | icao_plots.py:608-654 | a drawn histogram has band `[center - dev, center + dev]`; its three counts add up to the n - 1 intervals; its middle values lie in the band; its min and max are intervals with min <= max |
| `IcaoPlots.NearestPosition` | icao_plots.py:445-459 | None exactly for no positions; otherwise the first position whose time gap to `t` is minimal |
| `IcaoPlots.NextIndex` | icao_plots.py:810 | `(i + 1) % n` stays in `[0, n)` and wraps from the last index to 0 |
| `IcaoPlots.PrevIndex` | icao_plots.py:816 | `(i - 1 + n) % n` stays in `[0, n)` and wraps from 0 to the last index |
| `IcaoPlots.PrevUndoesNext` | icao_plots.py:807-817 | stepping back undoes stepping forward, and the other way round |
| `IcaoPlots.Viewer.constructor` | icao_plots.py:15-73 | the viewer lists all aircraft in address order and starts at the first aircraft and the first graph mode |
| `IcaoPlots.Viewer.CurrentIcao` | icao_plots.py:146-152 | an aircraft is shown exactly when the list is non-empty, and it is a listed one |
| `IcaoPlots.Viewer.CurrentHistMode` | icao_plots.py:500-605 | a histogram is selected exactly when the histogram group is shown |
| `IcaoPlots.Viewer.NextIcao` | icao_plots.py:807-811 | no-op without aircraft; otherwise the next aircraft, wrapping; nothing else changes |
| `IcaoPlots.Viewer.PrevIcao` | icao_plots.py:813-817 | no-op without aircraft; otherwise the previous aircraft, wrapping; nothing else changes |
| `IcaoPlots.Viewer.NextMode` | icao_plots.py:819-823 | no-op without aircraft; otherwise the next mode of the current group, wrapping |
| `IcaoPlots.Viewer.PrevMode` | icao_plots.py:825-829 | no-op without aircraft; otherwise the previous mode of the current group, wrapping |
| `IcaoPlots.Viewer.ShowGraphs` | icao_plots.py:781-789 | already on graphs: nothing changes; otherwise the graph list at its first mode |
| `IcaoPlots.Viewer.ShowHists` | icao_plots.py:791-799 | already on histograms: nothing changes; otherwise the histogram list at its first mode |
| `IcaoPlots.Viewer.OnRadioChanged` | icao_plots.py:801-805 | "Графики" shows the graphs, "Гистограммы" the histograms, any other label changes nothing; the mode index resets exactly when the group changes |
| `Prog1.GetBaroAltitude` | prog1.py:65-76 | the variant reads altitude from TC 9-18 only, never from TC 20-22, and agrees with the later getter on TC 9-18 |
| `Prog1.Ingest` | prog1.py:829-920 | the loop with its `continue`s computes `Ingested1` over the lines in order, from empty containers |
| `Prog1.OnlyExtendedSquitters` | prog1.py:848 | a record that is not DF 17/18 (DF 11 included) changes nothing |
| `Prog1.GnssAltitudeIgnored` | prog1.py:859-920 | a TC 20-22 record only records the sighting |
| `Prog1.PositionPairing` | prog1.py:868-881 | CPR pairing as in the later program: overwrite by parity, resolve and empty only under 10 s, keep both halves otherwise, at most one position per record |
| `Prog1.PositionAgrees` | prog1.py:863-881 | on TC 9-18 the later program's shared containers change exactly as the variant's |
| `Prog1.VelocityAgrees` | prog1.py:884-896 | on a non-diverging TC 19 record the shared containers change alike |
| `Prog1.CallsignAgrees` | prog1.py:899-902 | on TC 1-4 the shared containers change alike |
| `Prog1.TargetStateAgrees` | prog1.py:904-917 | on TC 29 the shared containers change alike |
| `Prog1.GnssAgrees` | prog1.py:859-920 | a TC 20-22 record whose altitude is not kept leaves the shared containers as they are in both programs |
| `Prog1.StatusAgrees` | prog1.py:859-920 | a TC 28 record changes none of the shared containers in the later program, and the variant has no TC 28 branch |
| `Prog1.DispatchAgrees` | prog1.py:859-920 | on a non-diverging record the type-code dispatches agree on the shared containers |
| `Prog1.StepAgrees` | prog1.py:838-920 | on every non-diverging record both programs make the same change to the shared containers |
| `Prog1.IngestedAgrees` | prog1.py:829-920 | a whole log without diverging records leaves both programs with the same shared containers |
| `Prog1.GnssAltitudeDiverges` | prog1.py:70-75 | an in-range GNSS altitude lengthens the later program's altitude series and leaves the variant's unchanged |
| `Prog1.AltitudeDifferenceDiverges` | prog1.py:884-896 | a TC 19 record with an undecodable velocity but a valid altitude difference is stored only by the variant |
| `Prog1.Clip` | prog1.py:471 | `np.clip` lands in `[lo, hi]` and leaves a value already there unchanged |
| `Prog1.ClipAll` | prog1.py:471 | clips every interval, keeping the count |
| `Prog1.DiffsPositive` | prog1.py:452-453 | after `np.unique` every gap is strictly positive |
| `Prog1.AltitudeIntervalsShape` | prog1.py:446-487 | the legend's count is one fewer than the distinct timestamps, every interval is positive, every clipped value lies in [400, 600] |
| `Prog1.RepeatedTimestampsNoData` | prog1.py:451-460 | a series whose timestamps are all equal shows "no data", however long it is |
| `Prog1.IcaoList` | prog1.py:193-194 | exactly the listed aircraft with altitude, speed, position or course data, strictly ascending |
| `Prog1.Graphs.constructor` | prog1.py:191-220 | the list is `IcaoList`; without aircraft no mode list is chosen, otherwise the 14 graph modes, both indices at 0 |
| `Prog1.Graphs.NextIcao` | prog1.py:775-779 | no-op without aircraft; otherwise the next aircraft, wrapping |
| `Prog1.Graphs.PrevIcao` | prog1.py:781-785 | no-op without aircraft; otherwise the previous aircraft, wrapping |
| `Prog1.Graphs.NextMode` | prog1.py:787-791 | no-op without aircraft; otherwise the next mode, wrapping |
| `Prog1.Graphs.PrevMode` | prog1.py:793-797 | no-op without aircraft; otherwise the previous mode, wrapping |

## Left out

- Decoding: pyModeS is not part of this model. DF, address, type code, subtype, parity, altitude, velocity, squawk, emergency and TCAS flags, selected altitude, pressure setting and call sign arrive as fields of `Decoded`. CPR position resolution is the `Resolver` parameter.
- Uncaught decoder errors: `oe_flag`, `position` and `hex2bin` are unguarded in `main.py`, so a failure there ends the whole run. They are modelled as total. In `prog1.py` they sit inside a `try` whose `except` skips the rest of the record (prog1.py:859-920); the model does not capture that skip. An `oe_flag` failure there keeps the altitude already appended and leaves the slots as they were. A `position` failure leaves both slots full. In the model a resolver answer of `None` instead empties the slots.
- I/O: file reading, argument parsing and `sys.exit` are left out. Lines are a parameter of `Run` and `Ingest`, and the aircraft filter is a string that is empty when no filter is given.
- Formatting: the printed layout of the summary, time formatting (`time_formatter.py` is not part of this model), the headers and the `prog1.py` summary are not modelled. The summary's row values are modelled.
- Rendering: all matplotlib drawing, the graph modes' plots, legends, axis limits, scroll zoom (float geometry), the trigonometric heading vectors and the `round(t, 1)` timestamp matching of `reg09_tracks` are left out.
- The histogram's `has_plot_data` flag is not a field. `IcaoPlots.NoDataIffShort` states when the "no data" outcome occurs instead.
- prog1.py's other interval modes (speed, course, selected altitude, altitude difference, pressure setting) repeat the altitude mode's computation on other series. Only `alt_msg_intervals` (prog1.py:446-487) is modelled.
- Parsing.Upper: upper-casing is modelled for ASCII letters only; Python's `upper()` also maps non-ASCII letters and can lengthen a string ('ß' becomes "SS"). The accepted messages differ in one case: U+FB00 (the 'ff' ligature) upper-cases to "FF", so the line made of `1.0`, a space and that character parses in Python with the message "FF" and is rejected by `ParseLine`. Every other non-ASCII character upper-cases to text with a non-hex character, so such lines are rejected either way.
- Parsing.IsAlnum: treats only ASCII letters and digits as alphanumeric. Python's `isalnum` also accepts other Unicode letters and digits. Decoded call signs use the ADS-B character set, which is ASCII.
- `np.float64` timestamp parsing is the `toFloat` parameter. Floating-point rounding of timestamps and intervals is not modelled: reals are exact. `np.float64` also accepts "nan", "inf" and "-inf"; a real cannot represent them, so `toFloat` yields only finite values. With such a timestamp every comparison of the loop (`< 10` for a CPR pair, `<= 24.5` for an episode) is false, which the model does not capture.
