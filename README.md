# Magtogoek ADCP quality control, logging and loading logic in Dafny

This project models the sequential logic in Magtogoek's processing of
acoustic Doppler current profiler (ADCP) data:

- **Quality control** (`magtogoek/adcp/quality_control.py`). This covers:
  - the threshold tests on correlation, amplitude, percent-good, the Sentinel V
    fifth beam, temperature and pressure;
  - the blanking of implausible velocities;
  - the bottom-track motion correction;
  - `no_adcp_quality_control`;
  - the velocity flag grid that `adcp_quality_control` builds. It starts as an
    array of ones and is overwritten by masked assignments in a fixed order:
    3 for a failed test, 4 for a sidelobe or pressure failure, 9 for a missing
    velocity. It is then stored as `u_QC`, `v_QC` and `w_QC`, beside
    `pres_QC`, `temperature_QC` and `vb_vel_QC`.
- **The `Logger` of `magtogoek/utils.py`**: a logbook string that grows line by
  line, a warning count, and a verbosity level.
- **The loader logic** (`magtogoek/adcp/loader.py`). This covers:
  - the loader's own `Logger`, which counts a warning for every message
    holding `"WARNING:"`;
  - the check of the `dday` time vector, and the one-second vector that
    replaces a bad one;
  - the depth of the bins below the surface for each orientation;
  - the variable catalogue that `init_dataset` builds.

Modules:

- `Floats`: numpy's floating-point values as far as the code looks at them.
  A value is a finite real, `NaN` (missing) or an infinity. Comparisons
  follow numpy: every comparison with `NaN` is false.
- `Datasets`: the xarray dataset. A class `AdcpDataset` holds the depth and
  time coordinates and a map of named variables, which the operations
  reassign in place.
- `Utils`: the `Logger` of `utils.py`, modelled as a class.
- `Loader`: the logic of `loader.py` listed above.
- `QualityControl`: the quality-control tests and flag composition listed
  above, except `no_adcp_quality_control`.
- `NoQualityControl`: `no_adcp_quality_control`.
- `Wrappers`: `Option` and `Result`.

Functions specify the flag grid. The methods `ApplySteps` and `SetWhere`
build it in a two-dimensional array, and their `ensures` tie each cell to
`FlagAt`. The tests outside the model (horizontal, vertical and error
velocity; roll; pitch; sidelobe) are inputs, given as the masks they return.

The code and its comments disagree in one place. The module docstring gives
the good pressure range as [0, 180] dbar, but `MAX_PRESSURE` is 10000. The
model follows the code.

## Model

| member | source | states |
|---|---|---|
| `QualityControl.CorrelationTest` | magtogoek/adcp/quality_control.py:366-379 | A cell fails iff corr1..corr4 are all strictly below the threshold. If a corr variable is missing, the call fails because `l.warnings` does not exist. |
| `QualityControl.AmplitudeTest` | magtogoek/adcp/quality_control.py:382-394 | A cell fails iff amp1..amp4 are all strictly below the threshold. If an amp variable is missing, the call fails. |
| `QualityControl.FourBeamTest` | magtogoek/adcp/quality_control.py:370-376 | The shared four-beam rule: true exactly where all four beams are below the threshold. A comparison with NaN is false. |
| `QualityControl.OneBeamPasses` | magtogoek/adcp/quality_control.py:370-376 | One beam that is missing, or at or above the threshold, makes the cell pass both the correlation and the amplitude test. |
| `QualityControl.PercentGoodTest` | magtogoek/adcp/quality_control.py:397-404 | A cell fails exactly where `pg < threshold`. If `pg` is missing, the call fails. |
| `QualityControl.TemperatureTest` | magtogoek/adcp/quality_control.py:544-548 | A time fails iff the temperature is above 32 or below -2. NaN never fails. |
| `QualityControl.PressureTest` | magtogoek/adcp/quality_control.py:551-553 | A time fails iff the pressure is above 10000 or below 0. NaN never fails. |
| `QualityControl.RangeBoundsAreGood` | magtogoek/adcp/quality_control.py:62-65 | -2 and 32 °C, and 0 and 10000 dbar, are good values, and so is a missing value. |
| `QualityControl.SetWhere` | magtogoek/adcp/quality_control.py:209 | `a[mask] = x`: masked cells take `x`, and every other cell keeps its old value. |
| `QualityControl.VerticalBeamTest` | magtogoek/adcp/quality_control.py:472-484 | Starts all False. A cell is True iff some present `vb_amp`/`vb_corr`/`vb_pg` with a truthy threshold is below that threshold there. |
| `QualityControl.FifthBeamNeedsData` | magtogoek/adcp/quality_control.py:476-482 | With no fifth-beam variable present, or every threshold falsy, no cell fails. |
| `QualityControl.MotionCorrected` | magtogoek/adcp/quality_control.py:328-353 | In 'bt' mode with bt_u, bt_v and bt_w present, each of u, v, w loses its bottom-track value at every depth. In 'nav' mode with u_ship, v_ship and lon present, u gains u_ship (0 where lon is not finite) and v, w are unchanged. Otherwise nothing changes. |
| `QualityControl.NavAdded` | magtogoek/adcp/quality_control.py:340-343 | The ship velocity, taken as 0 where the longitude is not finite, is added to the velocity at every depth. |
| `QualityControl.MotionError` | magtogoek/adcp/quality_control.py:337-344 | Motion correction raises iff the mode is 'nav' with u_ship and v_ship present. The error is for the missing `lon`, or else for the `uship` variable it writes. |
| `QualityControl.MotionLog` | magtogoek/adcp/quality_control.py:328-353 | The logbook gains nothing exactly when the 'nav' branch raises. After a bottom-track correction it gains its log line. |
| `QualityControl.MotionWarns` | magtogoek/adcp/quality_control.py:328-353 | A warning is issued iff the bottom-track correction does not apply and nothing raises. |
| `QualityControl.MotionCorrectionSubtracts` | magtogoek/adcp/quality_control.py:328-331 | A finite velocity becomes the difference with the bottom track. A missing operand leaves a missing value. |
| `QualityControl.MotionCorrection` | magtogoek/adcp/quality_control.py:322-353 | The dataset becomes `MotionCorrected` and the error is `MotionError`. The logbook gains the log line or the warning of the branch taken, and nothing when it raises. The warning count rises by 1 exactly when a warning is issued at level < 2. |
| `QualityControl.BottomTrackCorrection` | magtogoek/adcp/quality_control.py:328-336 | The 'bt' branch: the dataset becomes `MotionCorrected`, with its log line or warning. |
| `QualityControl.NavigationCorrection` | magtogoek/adcp/quality_control.py:337-349 | The 'nav' branch: the dataset becomes `MotionCorrected`, the error is `MotionError`, and the warning is logged only when u_ship or v_ship is missing. |
| `QualityControl.AddShipVelocity` | magtogoek/adcp/quality_control.py:339-343 | u becomes `NavAdded` over u_ship; nothing else changes. |
| `QualityControl.SubtractBottomTrack` | magtogoek/adcp/quality_control.py:329-331 | The loop over u, v, w leaves the variables `MotionCorrected` gives. |
| `QualityControl.ImplausibleToNaN` | magtogoek/adcp/quality_control.py:356-362 | A cell keeps u, v, w iff all three lie strictly inside (-thres, thres). Otherwise all three become NaN. Other variables are unchanged. |
| `QualityControl.ImplausibleAllOrNothing` | magtogoek/adcp/quality_control.py:358-362 | After blanking, each cell has either all three components missing, or all three finite and inside the bounds. |
| `QualityControl.ImplausibleIdempotent` | magtogoek/adcp/quality_control.py:356-362 | Blanking a second time changes nothing. |
| `QualityControl.SetImplausibleVelToNan` | magtogoek/adcp/quality_control.py:356-362 | The in-place loop, which tests each component on the already-blanked values, ends in `ImplausibleToNaN`. |
| `QualityControl.Tile` | magtogoek/adcp/quality_control.py:244 | `np.tile` over depth: every depth has the time row. |
| `QualityControl.LastAssignmentWins` | magtogoek/adcp/quality_control.py:202-300 | In a sequence of masked assignments to an array of ones, the last assignment covering a cell decides its flag. A cell no assignment covers stays 1. |
| `QualityControl.FlagAtAppend` | magtogoek/adcp/quality_control.py:202-300 | Later assignments override earlier ones exactly where they apply. |
| `QualityControl.FlagAtUniform` | magtogoek/adcp/quality_control.py:209-240 | Assignments that all write one flag give that flag wherever one applies, and 1 elsewhere. |
| `QualityControl.TieredFlag` | magtogoek/adcp/quality_control.py:202-300 | With the 3-writes, then the 4-writes, then the 9-writes, a cell's flag is 9 over 4 over 3 over 1. |
| `QualityControl.ReferenceFlag` | magtogoek/adcp/quality_control.py:202-300 | The intended flag of a cell is always one of 1, 3, 4, 9. |
| `QualityControl.FlagAt` | magtogoek/adcp/quality_control.py:202-300 | The flag a cell holds after the assignments is 1 or a value one of them writes. |
| `QualityControl.BeamSteps` | magtogoek/adcp/quality_control.py:206-222 | The amplitude, correlation and percent-good assignments all write 3. They raise iff an enabled test finds its data missing, with the error of the first such test. |
| `QualityControl.OuterSteps` | magtogoek/adcp/quality_control.py:224-252 | The velocity, roll and pitch assignments all write 3. They raise iff an enabled error-velocity test lacks `e` or an enabled roll or pitch test lacks its data, with the first error in that order. |
| `QualityControl.ErrorStep` | magtogoek/adcp/quality_control.py:236-240 | An enabled error-velocity test raises iff `e` is missing. Otherwise its mask is assigned 3. |
| `QualityControl.TiltStep` | magtogoek/adcp/quality_control.py:242-252 | An enabled roll or pitch test raises iff its data are missing. Otherwise its (time) mask, tiled over depth, is assigned 3. |
| `QualityControl.SidelobeStep` | magtogoek/adcp/quality_control.py:254-259 | `if sidelobe_flag:` raises iff the mask has more than one cell. A one-cell mask is assigned 4. |
| `QualityControl.FinalSteps` | magtogoek/adcp/quality_control.py:254-300 | The sidelobe and pressure assignments write 4. The missing-velocity assignment comes last. Only the sidelobe truth test can raise. |
| `QualityControl.VelFlagSteps` | magtogoek/adcp/quality_control.py:202-300 | The assignments raise iff one of their groups raises. Each writes 3, 4 or 9, and the missing-velocity one is last. |
| `QualityControl.ProbablyBadStepsHold` | magtogoek/adcp/quality_control.py:206-252 | The assignments that write 3 cover exactly the cells where an enabled test (truthy threshold) fails. |
| `QualityControl.BadStepsHold` | magtogoek/adcp/quality_control.py:254-267 | The assignments that write 4 cover exactly the sidelobe cells and the columns whose pressure fails. |
| `QualityControl.VelFlagsAreReference` | magtogoek/adcp/quality_control.py:202-300 | Each cell after all the assignments is its reference flag: 9 for a missing velocity, else 4 for sidelobe or pressure, else 3 for a failed enabled test, else 1. |
| `QualityControl.ApplySteps` | magtogoek/adcp/quality_control.py:202-300 | The array of ones, overwritten step by step, holds `FlagAt` of the steps in every cell. |
| `QualityControl.VelocityFlags` | magtogoek/adcp/quality_control.py:202-300 | Builds the flag array, or returns the error of the first test that raises. |
| `QualityControl.MissingVelocity` | magtogoek/adcp/quality_control.py:297-300 | The intended missing-velocity mask: true iff u, v or w is not finite. |
| `QualityControl.MissingVelocityAsWritten` | magtogoek/adcp/quality_control.py:297-299 | The mask as written has the grid's shape. `np.bitwise_or`'s third argument is its output, so the mask is `~isfinite(u) \| ~isfinite(v)`. |
| `QualityControl.MissingAsWrittenIgnoresW` | magtogoek/adcp/quality_control.py:297-299 | Counterexample: u = v = 0, w = NaN is missed by the mask as written. |
| `QualityControl.MissingAsWrittenAgreesAfterBlanking` | magtogoek/adcp/quality_control.py:297-300 | After the plausibility blanking, the two masks are equal. |
| `QualityControl.RangeQc` | magtogoek/adcp/quality_control.py:263-265 | `pres_QC`/`temperature_QC`: 4 where the range test fails, 1 elsewhere. |
| `QualityControl.VbQc` | magtogoek/adcp/quality_control.py:289-290 | `vb_vel_QC`: 3 where the fifth beam fails, 0 elsewhere. |
| `QualityControl.Scaled` | magtogoek/adcp/quality_control.py:290 | `mask * 3`: 3 on True, 0 on False. |
| `QualityControl.FlagGrid` | magtogoek/adcp/quality_control.py:302-303 | The grid stored as `u_QC` has each cell equal to the flag the assignments leave. |
| `QualityControl.Run` | magtogoek/adcp/quality_control.py:197-303 | On a dataset with u, v, w: a motion-correction error is the run's error; a run that raises adds no variable; a run without error has `u_QC`, `v_QC`, `w_QC`. |
| `QualityControl.QcVariables` | magtogoek/adcp/quality_control.py:261-303 | Adds exactly `u_QC`, `v_QC`, `w_QC` (all the given grid) and `pres_QC`, `temperature_QC`, `vb_vel_QC` for the data present, with their range and fifth-beam flags. Every other variable keeps its value. |
| `QualityControl.QcSucceeds` | magtogoek/adcp/quality_control.py:202-303 | A run with no error adds the flag variables over the prepared dataset. |
| `QualityControl.PreparedKeeps` | magtogoek/adcp/quality_control.py:197-200 | Motion correction and blanking change only u, v, w. |
| `QualityControl.PreparedTests` | magtogoek/adcp/quality_control.py:261-290 | The pressure, temperature and fifth-beam results do not depend on the velocity preparation. |
| `QualityControl.PreparedMissing` | magtogoek/adcp/quality_control.py:197-200 | After preparation, a velocity is missing iff, after motion correction, one of u, v, w was not plausible. |
| `QualityControl.QcVelocityFlagsShared` | magtogoek/adcp/quality_control.py:302-303 | `u_QC`, `v_QC` and `w_QC` are one and the same (depth, time) grid. |
| `QualityControl.QcVelocityFlag` | magtogoek/adcp/quality_control.py:202-303 | Every cell of `u_QC` is the reference flag of the prepared dataset, which is in {1, 3, 4, 9}. |
| `QualityControl.QcMissingIff` | magtogoek/adcp/quality_control.py:297-300 | A cell is 9 iff, after motion correction, u, v or w is missing or outside (-15, 15). |
| `QualityControl.QcPressureFlags` | magtogoek/adcp/quality_control.py:261-266 | `pres_QC[t]` is 4 iff the pressure fails at t, and 1 otherwise. |
| `QualityControl.QcPressureColumn` | magtogoek/adcp/quality_control.py:263-267 | A pressure failure at time t leaves every depth of column t at 4, or 9 where the velocity is missing. |
| `QualityControl.QcTemperatureFlags` | magtogoek/adcp/quality_control.py:273-277 | `temperature_QC[t]` is 4 iff the temperature fails at t, and 1 otherwise. |
| `QualityControl.QcFifthBeamFlags` | magtogoek/adcp/quality_control.py:281-290 | With `vb_vel` present, `vb_vel_QC` is 3 where the fifth beam fails and 0 elsewhere. |
| `QualityControl.QcAddsFlagVariables` | magtogoek/adcp/quality_control.py:261-303 | A run adds exactly `u_QC`, `v_QC`, `w_QC`, plus `pres_QC`, `temperature_QC`, `vb_vel_QC` for the data present. Every variable other than u, v, w keeps its value. |
| `QualityControl.QcNothingEnabled` | magtogoek/adcp/quality_control.py:202-300 | With every threshold falsy, no sidelobe correction, no pressure and a motion correction that does not raise, the run reaches the flag variables without error and a cell is 9 where a velocity is missing and 1 elsewhere. |
| `QualityControl.QcNavRaises` | magtogoek/adcp/quality_control.py:197-198 | In 'nav' mode with the ship velocities present the run raises. With `lon`, only u has changed (by the ship velocity); without it, nothing has. No flag variable is added. |
| `QualityControl.AdcpQualityControl` | magtogoek/adcp/quality_control.py:112-315 | The dataset's variables are those of `Run`. The error is that of `Run`, or, when `Run` raised nothing, a `KeyError` for the missing `"logbook"` attribute. Without error, the attribute gains the logger's logbook. The logbook starts with the section and motion lines. The warning count is that of the motion correction. |
| `QualityControl.CorrectMotion` | magtogoek/adcp/quality_control.py:194-198 | Motion correction runs iff a non-empty mode is given. Its error is passed on. |
| `QualityControl.StartLog` | magtogoek/adcp/quality_control.py:194-195 | The logbook is exactly the heading `[Quality Control]` and the count is 0. |
| `QualityControl.AddFlagVariables` | magtogoek/adcp/quality_control.py:202-303 | Adds the flag variables of `Flagged`, or leaves the dataset and returns the error. |
| `QualityControl.AddQcVariables` | magtogoek/adcp/quality_control.py:261-303 | Adds `pres_QC`, `temperature_QC`, `vb_vel_QC` as present, then the one grid as `u_QC`, `v_QC`, `w_QC`. |
| `NoQualityControl.Zeros` | magtogoek/adcp/quality_control.py:104 | A flag variable of zeros with the variable's dimensions. |
| `NoQualityControl.WithZeroQc` | magtogoek/adcp/quality_control.py:101-104 | Each visited variable that is present gets `_QC` of zeros. Nothing else is added or changed. |
| `NoQualityControl.WithZeroQcShape` | magtogoek/adcp/quality_control.py:101-104 | The zero flags keep the dataset's shape. |
| `NoQualityControl.NoAdcpQualityControl` | magtogoek/adcp/quality_control.py:84-104 | Zero flags for temperature, pres, u, v, w when present. The logbook is the heading and one line, and the count is 0. |
| `NoQualityControl.AddZeroFlags` | magtogoek/adcp/quality_control.py:101-104 | The loop leaves `WithZeroQc` of the names. |
| `Utils.Logger.constructor` | magtogoek/utils.py:46-50 | A new logger has the given logbook and level, and a warning count of 0. |
| `Utils.Logger.Section` | magtogoek/utils.py:55-66 | Appends `[name]`, then ` ` and the timestamp when `t` is set, then a newline. The count and level are unchanged. |
| `Utils.Logger.Log` | magtogoek/utils.py:69-84 | Appends ` msg\n` per string, at any level, with the timestamp first when `t` is set. The old logbook is a prefix. The count is unchanged. |
| `Utils.Logger.Warning` | magtogoek/utils.py:86-102 | Appends like `Log`. The count rises by one per string iff the level is below 2. |
| `Utils.Logger.Reset` | magtogoek/utils.py:104-107 | Logbook `""`, count 0, level unchanged. |
| `Utils.Logger.AppendLine` | magtogoek/utils.py:83-84 | Appends one line for one string. |
| `Utils.Logger.WarnLine` | magtogoek/utils.py:98-102 | One string: counts it iff the level is below 2, and appends its line. |
| `Utils.LogLinesAppend` | magtogoek/utils.py:78-79 | Logging two lists one after the other logs their concatenation. |
| `Utils.ListIsOneCallPerItem` | magtogoek/utils.py:78-79 | A list message logs as its first string, then the rest, with the same `t`. |
| `Loader.Occurs` | magtogoek/adcp/loader.py:86 | `pat in s`: true iff the pattern occurs at some index of `s`. |
| `Loader.TaggedCountAppend` | magtogoek/adcp/loader.py:82-83 | The warnings counted over two lists add up. |
| `Loader.TaggedCountBounds` | magtogoek/adcp/loader.py:82-90 | A list counts at most one warning per string, and counts all of them iff every string holds the tag. |
| `Loader.Logger.constructor` | magtogoek/adcp/loader.py:67-70 | A new logger has the given logbook and a count of 0. |
| `Loader.Logger.Section` | magtogoek/adcp/loader.py:75-77 | Appends `[msg]`, with the timestamp when `t` is set, then a newline. |
| `Loader.Logger.Log` | magtogoek/adcp/loader.py:80-92 | Appends one line per string. A list's strings are logged without the timestamp. The count rises by one per string holding `"WARNING:"`. |
| `Loader.Logger.LogString` | magtogoek/adcp/loader.py:86-92 | One string: the count rises by 1 iff `"WARNING:"` occurs in it, and its line is appended. |
| `Loader.AnyNegative` | magtogoek/adcp/loader.py:166 | `(dday < 0).any()`: true iff some entry is negative. |
| `Loader.AnyStepBack` | magtogoek/adcp/loader.py:166 | `(np.diff(dday) < 0).any()`: true iff some consecutive pair strictly decreases. |
| `Loader.BadTime` | magtogoek/adcp/loader.py:165-167 | Bad iff some day is negative or some consecutive pair strictly decreases. |
| `Loader.DefaultDday` | magtogoek/adcp/loader.py:174-176 | The replacement vector has one entry per ping, and entry i is i / 86400 days. |
| `Loader.DefaultDdayIsGood` | magtogoek/adcp/loader.py:174-176 | The replacement vector steps by one second and is not bad. |
| `Loader.LoadedDays` | magtogoek/adcp/loader.py:165-178 | The days passed on are `dday` when it is good and the replacement otherwise. They are never bad and keep the length. |
| `Loader.BadTimeMessages` | magtogoek/adcp/loader.py:168-173 | The intended list: two strings, each starting with `"WARNING:"`. |
| `Loader.BadTimeMessagesAsWritten` | magtogoek/adcp/loader.py:168-173 | The list as written: one string, the two intended warnings joined. |
| `Loader.BadTimeTagsAsWritten` | magtogoek/adcp/loader.py:168-173 | As written the list holds one string, with `"WARNING:"` at its start and again in its middle. |
| `Loader.BadTimeWarningsAsWritten` | magtogoek/adcp/loader.py:168-173 | As written, logging the list counts one warning only. |
| `Loader.BadTimeWarningsCounted` | magtogoek/adcp/loader.py:168-173 | With the two messages as separate strings, two warnings are counted. |
| `Loader.LoadTime` | magtogoek/adcp/loader.py:165-178 | Reports `bad_time`. Returns `LoadedDays`. On bad time, logs the two warnings and the count rises by 2; otherwise it logs nothing. |
| `Loader.DepthBelowSurface` | magtogoek/adcp/loader.py:183-194 | For a sonar other than "os": XducerDepth + dep looking "down", XducerDepth - dep for any other orientation. No depth for "os". |
| `Loader.DepthOrder` | magtogoek/adcp/loader.py:191-194 | Looking down, farther bins are deeper. Otherwise farther bins are shallower. |
| `Loader.DatasetDepth` | magtogoek/adcp/loader.py:180-199 | The intended depth coordinate: the depth below the surface, or `dep` for "os". It has one entry per bin. |
| `Loader.DatasetDepthAsWritten` | magtogoek/adcp/loader.py:199 | The coordinate as written is `dep`, one entry per bin. |
| `Loader.DepthDroppedAsWritten` | magtogoek/adcp/loader.py:191-199 | Looking down, with the transducer below the surface, every bin's coordinate as written differs from its depth below the surface. |
| `Loader.DepthDroppedExample` | magtogoek/adcp/loader.py:191-199 | Counterexample: transducer at 5 m looking down, one bin at 1 m: written 1, intended 6. |
| `Loader.Nans2` | magtogoek/adcp/loader.py:525-527 | `nans(depth.shape + time.shape)`: a depth × time grid of NaN. |
| `Loader.Nans` | magtogoek/adcp/loader.py:525-527 | `nans(time.shape)`: a time vector of NaN. |
| `Loader.InitVariables` | magtogoek/adcp/loader.py:354-393 | The catalogue is well shaped: (depth, time) names over the grid, (time) names over time. |
| `Loader.CatalogueSizes` | magtogoek/adcp/loader.py:354-393 | 13 (depth, time) names, 16 with the fifth beam, and 14 (time) names. |
| `Loader.InitVariablesCatalogue` | magtogoek/adcp/loader.py:354-393 | 13 depth × time variables, plus exactly `vb_vel`, `vb_amp`, `vb_corr` for "sv"; the 14 time variables; every value NaN. |
| `Loader.InitDataset` | magtogoek/adcp/loader.py:335-400 | A new, well-shaped dataset over the given coordinates with the catalogue above. |
| `Loader.InitLoadedDataset` | magtogoek/adcp/loader.py:199 | The dataset built over `DatasetDepth` and the given times, with the catalogue. |
| `Datasets.AdcpDataset.constructor` | magtogoek/adcp/loader.py:395-398 | A new dataset has the given coordinates and variables, and no `"logbook"` attribute. |
| `Floats.Sub` | magtogoek/adcp/quality_control.py:331 | numpy subtraction: finite iff both operands are, the real difference then, and NaN from a NaN operand. |
| `Floats.Add` | magtogoek/adcp/quality_control.py:340-343 | numpy addition: finite iff both operands are, the real sum then, NaN from a NaN operand, and adding 0 changes nothing. |

## Left out

- Reading the files (`read_fixed_leader`, pycurrents `Multiread`/`rawfile`), and the rest of `load_rdi_binary` that copies the decoded arrays into the dataset: foreign library and I/O.
- `dday_to_datetime64` and the pandas date formatting: foreign library. The model stops at the day vector it is given.
- `coordsystem2earth`, `magnetic_to_true`, `roll_test`, `pitch_test`, `horizontal_vel_test`, `sidelobe_test`: they use trigonometry, square roots, circular means and a module that is not part of this model. Their results enter the flag composition as input masks (`OuterMasks`).
- `vertical_vel_test` and `error_vel_test`: their `where=` arguments leave the values at non-finite cells unspecified. Their masks are inputs too. Only the fact that the error test reads `dataset.e` is modelled, since a missing `e` raises.
- The fallback branches of the threshold tests when data are missing: they call `l.warnings`, which `Logger` does not define. They are modelled as the error `NoWarningsMethod`, not as an all-False mask.
- The 'nav' branch of `motion_correction` is modelled up to the error it raises. It corrects u, then writes the variable `uship`, which no dataset holds (the loader's catalogue has no ship velocities at all). The model takes the write to raise `NoSuchKey("uship")`. It is not modelled for a dataset that happens to hold `uship`.
- QualityControl.AdcpQualityControl: requires u, v and w in the dataset, which its docstring demands ("formatted as done by adcp_init"). Without them the source raises a `KeyError` in `motion_correction` or `set_implausible_vel_to_nan`, possibly after changing some components; that error path is not modelled. It states the logbook only up to its prefix (heading and motion-correction line). The lines for the thresholds, the fifth beam and the final summary are not stated, so neither is the exact text appended to the `"logbook"` attribute. The warning count leaves out warnings that `sidelobe_test` would issue, since that test is an input.
- QualityControl.Run: requires u, v and w, for the same reason. Its error `None` means that nothing raised up to the flag variables. The final `dataset.attrs["logbook"] += l.logbook` raises a `KeyError` unless the caller has set that attribute; the loader stores its logbook as `_vartmp_logbook` instead. That raise is modelled in `QualityControl.AdcpQualityControl`.
- QC attribute bookkeeping: `quality_test`, `quality_date`, `flag_meanings`, `flag_values`, `quality_comments` and the `flags_*` attributes. These are strings and dates only. Only the `"logbook"` attribute is modelled.
- Console output (`print`, `click.secho`, `click.echo`) is left out. The wall-clock timestamp is the parameter `stamp`, one per call; elements of a list message share it.
- A list message holding nested lists is not modelled. A message is one string or a list of strings.
- Loader.DepthBelowSurface: takes the transducer depth as a value. The median of `data.XducerDepth` it comes from is not modelled.
- The log line comparing `sensor_depth` with `XducerDepth` in `load_rdi_binary`: it formats a float with Python's `repr`, which the model does not have. It counts no warning.
- Finite floating-point values are exact reals: rounding, and the `int8`/float dtypes of the flag arrays, are not modelled.
- The file and interactive helpers of `utils.py` (`get_files_from_expresion`, `is_valid_filename`, `ask_for_filename`, `dict2json`, `json2dict`), and the `__main__` blocks.

## Findings

| source | as written | input that shows it | evidently intended | confidence | as-written member | corrected member |
|---|---|---|---|---|---|---|
| magtogoek/adcp/quality_control.py:297-299 | `np.bitwise_or(a, b, c)` takes its third argument as the output array, so the missing-velocity mask is `~isfinite(u) \| ~isfinite(v)` and `w` is not looked at. | A 1 × 1 grid with u = 0, v = 0, w = NaN: the mask is False. | A cell is missing when any of u, v, w is not finite. After the plausibility blanking the two masks agree, so the flag grid is unaffected. | not executed | `QualityControl.MissingAsWrittenIgnoresW` | `QualityControl.MissingVelocity` |
| magtogoek/adcp/loader.py:168-173 | The two warning f-strings lack a comma between them. They form a single list element, so the logbook gets one line and `w_count` rises by 1. | Any `dday` with a negative entry, e.g. `[-1.0]`. | Two warnings on two logbook lines, with `w_count` rising by 2. | not executed | `Loader.BadTimeWarningsAsWritten` | `Loader.LoadTime` |
| magtogoek/adcp/loader.py:180-199 | The depth below the surface is computed into `depth`, but `init_dataset(time, data.dep, ...)` builds the dataset over `data.dep`, the ranges from the transducer. | A downward-looking ADCP at 5 m with one bin 1 m away: the coordinate is 1, not 6. | The dataset is built over the depth below the surface (or `dep` for "os"), as the module docstring and the section comment say. | not executed | `Loader.DepthDroppedExample` | `Loader.DatasetDepth` |
