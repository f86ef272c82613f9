# Instrument GUI core, modelled in Dafny

The repository is a set of Tkinter front panels that drive bench instruments over a VISA
text channel: the Keithley 2450 and 2602B source-measure units (I-V sweeps, triggered
voltmeters, a DIGIO trigger listener, TSP script uploads), the Keysight 33522B, Tektronix
AFG3021B and Siglent SDG1020 function generators (pulse, burst and trigger set-ups), and a
LAN identification tool. This project models the logic behind those panels and proves what
it promises:

- the sweep path planner, which splits the sweep at 0 V into monotonic segments;
- the commanded-versus-measured reconciler;
- the drain-until-timeout and drain-until-marker read loops, with their buffer read-backs;
- the per-run bookkeeping of the I-V sweep worker;
- the hand-off of the instrument session between the trigger listener and the sweep panel;
- the entry parsers and validators of every panel (Python's `float`, `int`, `strip`, `lower`
  and `split` are written out in `PyText`, for the characters listed under "## Left out");
- the ordered command sequences each generator panel writes, and the flags each panel keeps.

The instrument is a class, `Channel.Instrument`. Its state is:

- a queue of read outcomes;
- a queue of write faults;
- the log of commands written;
- the timeout.

A method that talks to the instrument states, in its `ensures`:

- the commands it wrote, as a function of the inputs;
- what it returns, read off what it was given to read.

Methods that only compute are specified against pure functions, and lemmas about those
functions state the properties. A panel whose handlers update its fields is a class, and the
handlers are its methods.

Where two source files contain the same helper, one Dafny member models both, and its row
cites each copy.

## Model

| member | source | states |
|---|---|---|
| Reconciler.StepCandidates | 2450/2450_gui_iv_multiple.py:550-554 | a size is a candidate iff it is the size of a real (non-isclose) consecutive commanded step within the compared prefix; every candidate is above 1e-12 |
| Reconciler.FirstExceed | 2450/2450_gui_iv_multiple.py:558-562 | the stuck index is the first compared point whose measured value leaves the tolerance, every earlier point being within it |
| Reconciler.CompareLength | 2450/2450_gui_iv_multiple.py:549 | the compared length is the shorter of the two inputs |
| Reconciler.MatchVoltageSequence | 2450/2450_gui_iv_multiple.py:546-570 | the loop computes exactly the reconciled sequence `Reconcile(expected, actual)` |
| Reconciler.MatchPrefix | 2450/2450_gui_iv_multiple.py:557-565 | the sticky loop over the compared range returns the readbacks before the first point out of tolerance and the commanded levels from that point on |
| Reconciler.ReconcileShape | 2450/2450_gui_iv_multiple.py:546-570 | output length is len(actual); empty input returns actual; before the stuck index the output is actual and within tolerance, from it up to the compared length it is expected, and the tail of actual passes through |
| Reconciler.ReconcileSticky | 2450/2450_gui_iv_multiple.py:561-565 | once stuck, a point back within tolerance is still replaced by its commanded value |
| Reconciler.ReconcileTracking | 2450/2450_gui_iv_multiple.py:559-563 | a readback within tolerance everywhere is returned unchanged |
| Reconciler.ReconcileIdentity | 2450/2450_gui_iv_multiple.py:546-570 | reconcile(x, x) == x |
| Reconciler.ToleranceBounds | 2450/2450_gui_iv_multiple.py:555-556 | the tolerance is at least 1e-6 and at most max(2% of any real commanded step, 1e-6) |
| Reconciler.ToleranceOfSmallestStep | 2450/2450_gui_iv_multiple.py:550-556 | without a real step the tolerance is exactly 1e-6; otherwise it is max(2% of a real step no larger than any other, 1e-6) |
| SweepPlanner.Epsilon | 2450/2450_gui_iv_multiple.py:495 | epsilon = step·1e-9 + 1e-12 is positive |
| SweepPlanner.NextLevel | 2450/2450_gui_iv_multiple.py:506-510 | the next level is one step on or, once it overshoots stop by more than epsilon, stop itself; it never passes stop by more than epsilon |
| SweepPlanner.GenerateSegmentLevels | 2450/2450_gui_iv_multiple.py:499-517 | the loop's result is a ladder: it starts at start, each level is stepped from the previous, it ends when close to stop or when no progress is made |
| SweepPlanner.LadderUnique | 2450/2450_gui_iv_multiple.py:499-517 | the ladder contract determines one list, so it pins the generator down |
| SweepPlanner.LadderInner | 2450/2450_gui_iv_multiple.py:505-516 | inner ladder levels are one step apart and not yet close to stop |
| SweepPlanner.LadderWithinStop | 2450/2450_gui_iv_multiple.py:506-510 | with the step pointing at stop, no level passes stop by more than epsilon |
| SweepPlanner.LadderMonotone | 2450/2450_gui_iv_multiple.py:499-517 | the ladder is strictly monotone in the step direction |
| SweepPlanner.LadderFromStart | 2450/2450_gui_iv_multiple.py:500 | every level lies on the step side of the segment start |
| SweepPlanner.LadderReachesStop | 2450/2450_gui_iv_multiple.py:513-516 | within 1e8 steps of 0 V the last level is isclose to stop |
| SweepPlanner.SegmentListShape | 2450/2450_gui_iv_multiple.py:527-539 | with P = max(start, stop, 0) and N = min(start, stop, 0): 0→P, P→0 when P > ε; 0→N, N→0 when N < −ε; otherwise the single (start, stop, step) |
| SweepPlanner.SegmentListSymmetricExample | 2450/2450_gui_iv_multiple.py:527-534 | −4..4 V gives exactly [0→4, 4→0, 0→−4, −4→0] |
| SweepPlanner.SegmentsSplitAtZero | 2450/2450_gui_iv_multiple.py:519-534 | every segment of a split sweep starts or ends at 0 V, keeps to one side of zero, steps by abs(step) toward its stop, and stays within the larger of abs(start) and abs(stop) |
| SweepPlanner.SegmentListNonEmpty | 2450/2450_gui_iv_multiple.py:536-537 | there is always at least one segment |
| SweepPlanner.AppendSegment | 2450/2450_gui_iv_multiple.py:519-525 | `append_segment` skips a segment whose ends are close, otherwise appends it with step +abs(step) or -abs(step) toward its stop, together with its ladder, so the commanded path stays the concatenation of the ladders |
| SweepPlanner.BuildSegments | 2450/2450_gui_iv_multiple.py:488-544 | a zero step raises "Step voltage must not be zero." before anything is built; otherwise the segments are SegmentList, each has its ladder, and the commanded path is their concatenation and never empty |
| SweepPlanner.PlanLaddersReachTargets | 2450/2450_gui_iv_multiple.py:499-534 | every ladder of a split sweep ends close to its segment's target |
| SweepReadback.PrintedPoints | 2450/2450_gui_iv_multiple.py:611-626 | `_parse_printed_lines` keeps at most one (voltage, current) pair per line, in order |
| SweepReadback.PointRoundTrip | 2450/2450_gui_iv_multiple.py:628-639 | a printed `index, voltage, current` row parses back to its (voltage, current) |
| SweepReadback.TwoColumnsSkipped | 2450/2450_gui_iv_multiple.py:630-632 | a line with fewer than three fields gives no point |
| SweepReadback.PrintedPointsAppend | 2450/2450_gui_iv_multiple.py:611-626 | parsing distributes over concatenated line lists, so order is preserved |
| SweepReadback.PrintedRowsRoundTrip | 2450/2450_gui_iv_multiple.py:611-626 | printing rows and parsing them back gives exactly their readings |
| SweepReadback.MarkerScan | 2450/2450_gui_iv_multiple.py:444-464 | the scan polls the stop flag before every read: a set flag is "Sweep cancelled.", a failed or timed-out read is the wait failure, and it reads at most one past the scripted lines |
| SweepReadback.ReadUntilMarker | 2450/2450_gui_iv_multiple.py:444-464 | the loop's result, lines consumed, polls made and read timeouts are exactly those of MarkerScan; nothing is written and the timeout is untouched; disconnected gives [] |
| SweepReadback.ScanToMarker | 2450/2450_gui_iv_multiple.py:447-464 | on an open session the loop reads exactly what MarkerScan consumes and returns its result; nothing is written |
| SweepReadback.PollThenRead | 2450/2450_gui_iv_multiple.py:449-452 | the stop flag is polled first; a set flag reads nothing, a clear one reads exactly one outcome |
| SweepReadback.ScanLinesClean | 2450/2450_gui_iv_multiple.py:455-463 | the returned lines are non-empty, stripped, and never the marker |
| SweepReadback.ScanUntilMarker | 2450/2450_gui_iv_multiple.py:444-464 | lines before the first marker line come back (non-empty ones only) and the marker ends the read |
| SweepReadback.ScanTimeoutFails | 2450/2450_gui_iv_multiple.py:452-454 | a timeout before the marker is an error, never a retry |
| SweepReadback.ScanStopCancels | 2450/2450_gui_iv_multiple.py:450-451 | a stop flag set at the top of an iteration cancels the read |
| SweepReadback.ChooseReadings | 2450/2450_gui_iv_multiple.py:423-440 | buffer values are used when both buffers have point-count entries or the printed lines parse to nothing; otherwise the parsed printed points; both lists are then cut to the shorter |
| SweepReadback.FetchBuffer | 2450/2450_gui_iv_multiple.py:641-659 | disconnected or count 0 gives [] without writing; otherwise one `printbuffer(1, count, accessor)` query whose answer's numeric comma/newline tokens are the result, and a VISA error is "Failed to fetch buffer data for ACCESSOR" |
| SweepReadback.StartSegment | 2450/2450_gui_iv_multiple.py:405-420 | the sweep call is written, then `print('SWEEP_DONE_<run+1>_<seg+1>')`, then the printed lines are read up to that marker |
| SweepReadback.ReadBack | 2450/2450_gui_iv_multiple.py:432-440 | the result, the commands written and the queues left are exactly ReadBackTrace: the count query, then the two buffer fetches, then ChooseReadings; a count that is not a number is "could not convert string to float" and a failed read is a VISA error |
| SweepReadback.PerformSweep | 2450/2450_gui_iv_multiple.py:403-441 | disconnected raises "Instrument not connected." and polls nothing; otherwise the result, the commands written and the queues left are exactly SegmentTrace: the sweep call, the marker print, the scan to the marker, then the read-back |
| SweepReadback.ReadBackSegment | 2450/2450_gui_iv_multiple.py:426-442 | after the marker scan, the count query, the two buffer dumps and the result are exactly the read-back trace of the printed lines |
| SweepReadback.ReadBuffers | 2450/2450_gui_iv_multiple.py:434-435 | the two buffer fetches for the count, as BuffersTrace: the first failure ends the read-back with its message |
| SweepReadback.ReadCurrents | 2450/2450_gui_iv_multiple.py:435-440 | the readings fetch and then ChooseReadings of both buffers against the printed rows, as CurrentsTrace |
| SweepReadback.QueryStep | 2450/2450_gui_iv_multiple.py:433 | one `query` writes the command unless the write faults and reads one reply, as Answer and AfterQuery say |
| SweepReadback.FetchClean | 2450/2450_gui_iv_multiple.py:641-659 | a clean `printbuffer` reply of n ≥ 1 printed integers yields exactly those numbers after one query |
| SweepReadback.FetchPolls | 2450/2450_gui_iv_multiple.py:641-659 | fetching a buffer never polls the stop flag |
| SweepReadback.ReadBackClean | 2450/2450_gui_iv_multiple.py:432-440 | a clean count n and two clean dumps of n values each send the count query and both fetches and give the two buffers |
| SweepReadback.ReadBackOfCount | 2450/2450_gui_iv_multiple.py:426-428 | a count reply that is the text of n makes the read-back the count query followed by the two dumps of n values |
| SweepReadback.BuffersClean | 2450/2450_gui_iv_multiple.py:427-428 | two clean dumps of n values send the source-value and reading dump commands, in that order, and give back exactly those values |
| SweepReadback.ReadBackZeroCount | 2450/2450_gui_iv_multiple.py:432-435 | a count of 0 ends after the count query with two empty lists |
| SweepReadback.ReadBackCountNotNumber | 2450/2450_gui_iv_multiple.py:433 | a count reply that is not a number fails after the count query with the float() error |
| SweepReadback.SegmentTraceFacts | 2450/2450_gui_iv_multiple.py:403-441 | a completed segment has as many voltages as currents, and its printed lines are stripped, non-empty and never the marker |
| SweepReadback.ParseRuns | 2450/2450_gui_iv_multiple.py:274-285 | total runs must be a float with integer value at least 1 |
| SweepReadback.ParseRunsRoundTrip | 2450/2450_gui_iv_multiple.py:274-285 | a typed whole number n is accepted iff n ≥ 1, as n |
| SweepReadback.CollectParameters | 2450/2450_gui_iv_multiple.py:260-286 | all six fields must be numbers and step non-zero, checked in the source's order with the first bad field named in the message; ilimit is made positive, nplc at least 0.001, settle at least 0 |
| SweepReadback.CollectParametersRoundTrip | 2450/2450_gui_iv_multiple.py:260-286 | whole-number entries are read back as those numbers |
| DrainQuery.DrainRest | 2450/2450_async_trigger_measure_voltage.py:344-351 | the drain reads until the first timeout (ending it) or error (failing it) |
| DrainQuery.DrainedLinesClean | 2450/2450_async_trigger_measure_voltage.py:350-351 | only non-empty stripped lines are kept |
| DrainQuery.DrainLines | 2450/2450_async_trigger_measure_voltage.py:343-351 | the drain loop returns the lines of DrainRest, consumes exactly its reads, and reads each at the timeout in force |
| DrainQuery.ReadResponseLines | 2450/2450_async_trigger_measure_voltage.py:330-355 | the first read at the original timeout, the rest at min(original, 250 ms), up to the first timeout; a read error fails; the original timeout is restored on every path |
| DrainQuery.QueryLines | 2450/2450_async_trigger_measure_voltage.py:324-328 | disconnected returns [] without writing; otherwise the command is written and the response drained; the same code also at `depreciated_2450_3021b_pulse_measVoltage.py:1138-1166`, `2450/2450_gui_triggered_different_measure_voltage.py:376-404`, `2450_33522b_measVoltage.py:1092-1119`, `2450/2450_receive_measure_voltage_gui.py:511-538`, `2450/2450_gui_triggered_measure_voltage.py:540-569` |
| DrainQuery.DrainUntilTimeout | 2450/2450_async_trigger_measure_voltage.py:344-351 | lines followed by a timeout drain to exactly those lines (blank ones dropped) |
| DrainQuery.DrainErrorFails | 2450/2450_async_trigger_measure_voltage.py:346-349 | a non-timeout read error propagates |
| ResponseParsers.FieldValueIsReal | depreciated_2450_3021b_pulse_measVoltage.py:1204-1210 | a token contributes a value iff it parses as a float, and then exactly that float |
| ResponseParsers.BufferFields | depreciated_2450_3021b_pulse_measVoltage.py:1203 | after newlines become commas and the text is split, no field holds a comma or newline |
| ResponseParsers.FieldValuesAppend | depreciated_2450_3021b_pulse_measVoltage.py:1203-1211 | the values of a field list are those of its parts, in order |
| ResponseParsers.ParseBuffer | depreciated_2450_3021b_pulse_measVoltage.py:1201-1211 | the token loop returns exactly BufferValues(text); the same code also at `2450/2450_async_trigger_measure_voltage.py:383-395`, `2450/test_2450_gui_measure-voltage.py:213-225`, `2450/2450_receive_measure_voltage_gui.py:540-552`, `2450/2450_gui_triggered_measure_voltage.py:570-581` |
| ResponseParsers.BufferValuesEmpty | 2450/2450_async_trigger_measure_voltage.py:384-385 | empty text gives [] |
| ResponseParsers.NewlineIsComma | depreciated_2450_3021b_pulse_measVoltage.py:1203 | commas and newlines separate tokens alike |
| ResponseParsers.AllNumericFields | depreciated_2450_3021b_pulse_measVoltage.py:1203-1211 | when every token is numeric, every one is kept, in order |
| ResponseParsers.BufferRoundTrip | depreciated_2450_3021b_pulse_measVoltage.py:1201-1211 | a comma-joined list of printed numbers parses back to those numbers |
| ResponseParsers.LastRealIndex | depreciated_2450_3021b_pulse_measVoltage.py:1180-1187 | the scan from the end finds the last line that parses as a float |
| ResponseParsers.SplitNumericTail | depreciated_2450_3021b_pulse_measVoltage.py:1177-1188 | with no numeric line the lines come back unchanged; otherwise a numeric line is split off and the rest is the other lines (as a multiset); the same code also at `2450/2450_async_trigger_measure_voltage.py:357-365` |
| ResponseParsers.SplitNumericTailIsLast | depreciated_2450_3021b_pulse_measVoltage.py:1180-1187 | the split-off line is the last numeric one and the remainder keeps the others in order |
| ResponseParsers.SplitNumericTailOfCount | 2450/2450_async_trigger_measure_voltage.py:357-365 | a printed count after log lines is split off and the log lines stay as they were |
| ResponseParsers.ParseCount | depreciated_2450_3021b_pulse_measVoltage.py:1191-1198 | None or non-numeric input gives None; otherwise the value rounded to within 0.5; the same code also at `2450/2450_async_trigger_measure_voltage.py:367-374` |
| ResponseParsers.ParseCountRoundTrip | depreciated_2450_3021b_pulse_measVoltage.py:1191-1198 | a printed whole number is its own count |
| ResponseParsers.LineSample | 2450/2450_gui_triggered_different_measure_voltage.py:413-423 | a line yields at most one (index, value) sample |
| ResponseParsers.HeaderLineSkipped | 2450/2450_gui_triggered_different_measure_voltage.py:413-414 | a line containing both "reading" and "voltage" yields nothing |
| ResponseParsers.Measurements | 2450/2450_gui_triggered_different_measure_voltage.py:406-424 | a reported error is an error line and comes with no data |
| ResponseParsers.ParseMeasurements | 2450/2450_gui_triggered_different_measure_voltage.py:406-424 | the loop returns exactly Measurements(lines); the same code also at `2450_33522b_measVoltage.py:1121-1139` |
| ResponseParsers.MeasurementsErrorAborts | 2450/2450_gui_triggered_different_measure_voltage.py:411-412 | the first line starting with "error" (any case) aborts with ([], that line) |
| ResponseParsers.MeasurementsNoError | 2450/2450_gui_triggered_different_measure_voltage.py:406-424 | without an error line there is no error and at most one sample per line |
| ResponseParsers.MeasurementsAppend | 2450/2450_gui_triggered_different_measure_voltage.py:408-423 | samples come out in line order |
| ResponseParsers.SampleRoundTrip | 2450/2450_gui_triggered_different_measure_voltage.py:415-423 | a printed `index, value` line parses back to (int(float(index)), value) |
| Validators.ParseFloatMin | 2450/2450_gui_triggered_measure_voltage.py:422-432 | accepted iff the text is a float at or above the optional minimum, and then that float; the same code also at `2450/2450_receive_measure_voltage_gui.py:475-482` |
| Validators.ParseIntRange | 2450/2450_gui_triggered_measure_voltage.py:434-444 | int(float(text)) accepted iff within the optional bounds; the same code also at `2450/2450_receive_measure_voltage_gui.py:464-473` |
| Validators.ParseLine | 2450/2450_gui_triggered_different_measure_voltage.py:367-374 | an accepted line is 1..6; the same code also at `2450_33522b_measVoltage.py:1083-1090` |
| Validators.FormatFloatArg | 2450/2450_receive_measure_voltage_gui.py:484-502 | blank gives "nil" if allowed, else the default, else an error; other text must be a float and is returned stripped, otherwise unchanged; the same code also at `2450/2450_async_trigger_measure_voltage.py:300-305`, `depreciated_2450_3021b_pulse_measVoltage.py:1169-1175` |
| Validators.FormatNumber | 2450/2450_gui_triggered_different_measure_voltage.py:351-365 | blank gives nil when allowed, else an error; integer mode requires ≥ 1 and gives str(int(value)); otherwise the float; the same code also at `2450_33522b_measVoltage.py:1067-1081` |
| Validators.ParseIntRangeRoundTrip | 2450/2450_gui_triggered_measure_voltage.py:434-444 | a typed whole number is accepted iff within the bounds, as itself |
| Validators.ParseLineRoundTrip | 2450/2450_gui_triggered_different_measure_voltage.py:367-374 | a typed line number is accepted iff 1..6 |
| Validators.ParseFloatMinRoundTrip | 2450/2450_gui_triggered_measure_voltage.py:422-432 | a typed whole number is accepted iff at or above the minimum |
| Validators.FormatFloatArgRoundTrip | 2450/2450_receive_measure_voltage_gui.py:484-502 | a typed number is passed on unchanged |
| Validators.FormatNumberWhole | 2450/2450_gui_triggered_different_measure_voltage.py:361-363 | a whole count is accepted iff ≥ 1, as its own text |
| TriggeredMeasure.ParseSentinel | 2450/2450_gui_triggered_measure_voltage.py:515-525 | a line is a sentinel iff it starts with the done or the timeout marker; the hint names which; a timeout carries no value |
| TriggeredMeasure.DoneSentinelValue | 2450/2450_gui_triggered_measure_voltage.py:516-522 | a done sentinel carries float() of the stripped text after the prefix, or None |
| TriggeredMeasure.DoneSentinelRoundTrip | 2450/2450_gui_triggered_measure_voltage.py:516-522 | "$MEAS:DONE$" followed by a printed number carries that number |
| TriggeredMeasure.KeepNonBlank | 2450/2450_gui_triggered_measure_voltage.py:310 | the loop keeps exactly the right-stripped non-blank lines, in order |
| TriggeredMeasure.ScanSentinels | 2450/2450_gui_triggered_measure_voltage.py:313-325 | the loop finds the last sentinel value and hint, and flags each kept line as sentinel or not |
| TriggeredMeasure.FindResultIndex | 2450/2450_gui_triggered_measure_voltage.py:327-331 | the backwards loop finds the last non-sentinel line |
| TriggeredMeasure.CollectProgress | 2450/2450_gui_triggered_measure_voltage.py:334-338 | progress is the kept lines without the result line |
| TriggeredMeasure.ClassifyResponse | 2450/2450_gui_triggered_measure_voltage.py:310-351 | the worker's classification of the reply equals Classify(lines) |
| TriggeredMeasure.KeptLinesEmpty | 2450/2450_gui_triggered_measure_voltage.py:310-312 | nothing is kept iff every line is blank |
| TriggeredMeasure.KeptLinesNonEmpty | 2450/2450_gui_triggered_measure_voltage.py:310 | no kept line is empty |
| TriggeredMeasure.ClassifyNoData | 2450/2450_gui_triggered_measure_voltage.py:311-312 | the reply fails iff every line is blank |
| TriggeredMeasure.LastPlainIsLast | 2450/2450_gui_triggered_measure_voltage.py:327-331 | every line after the chosen result line is a sentinel; with none chosen, all are |
| TriggeredMeasure.ResultLineIsLastPlain | 2450/2450_gui_triggered_measure_voltage.py:327-332 | the result line is the last non-sentinel kept line |
| TriggeredMeasure.ClassifyKeepsLines | 2450/2450_gui_triggered_measure_voltage.py:334-346 | no kept line is lost: progress plus a numeric result line is all the kept lines |
| TriggeredMeasure.ResultLineWins | 2450/2450_gui_triggered_measure_voltage.py:340-351 | a numeric result line is the measurement; otherwise the sentinel value is |
| TriggeredMeasure.ClassifySentinelOnly | 2450/2450_gui_triggered_measure_voltage.py:313-351 | a reply that is one sentinel line yields its value and hint |
| TriggeredMeasure.ClassifyDoneOnly | 2450/2450_gui_triggered_measure_voltage.py:313-351 | a lone done sentinel yields its number with hint done |
| TriggeredMeasure.ClassifyTimeoutOnly | 2450/2450_gui_triggered_measure_voltage.py:313-351 | a lone timeout sentinel yields no value with hint timeout |
| TriggeredMeasure.LatestValue | 2450/2450_gui_triggered_measure_voltage.py:527-538 | a value is returned only for a non-empty reply with values, and it is the last one |
| TriggeredMeasure.LatestValueOfDump | 2450/2450_gui_triggered_measure_voltage.py:527-538 | a printed buffer dump yields its last reading |
| TriggeredMeasure.FloatState | 2450/2450_gui_triggered_measure_voltage.py:497-513 | empty is an error; "off" anywhere gives 0, else "on" gives 1, else the float or an error |
| TriggeredMeasure.FloatStateNumeric | 2450/2450_gui_triggered_measure_voltage.py:507-513 | a printed number reads back as itself |
| TriggeredMeasure.FloatStateWords | 2450/2450_gui_triggered_measure_voltage.py:503-506 | "OFF" gives 0 and "ON" gives 1 |
| TriggeredMeasure.DisplayValue | 2450/2450_gui_triggered_measure_voltage.py:395 | the buffer value wins over the script's measurement |
| TriggeredMeasure.FinishStatus | 2450/2450_gui_triggered_measure_voltage.py:387-414 | complete iff no error and a value; failed iff error; timeout iff no value, not cancelled and hint timeout |
| TriggeredMeasure.TriggeredPanel.QueryFloat | 2450/2450_gui_triggered_measure_voltage.py:497-513 | a null instrument fails; otherwise one query whose reply is read by FloatState, frames updated |
| TriggeredMeasure.TriggeredPanel.EnsureOutputReady | 2450/2450_gui_triggered_measure_voltage.py:476-484 | without forcing nothing happens; an output already on is left alone; an off output is switched on and its state remembered; a failed query records an error |
| TriggeredMeasure.TriggeredPanel.RestoreOutputState | 2450/2450_gui_triggered_measure_voltage.py:486-495 | a remembered off state is restored by writing OUTPUT OFF (logged unless the write faults) and forgotten; nothing else changes |
| TriggeredMeasure.TriggeredPanel.ReadLatestFromBuffer | 2450/2450_gui_triggered_measure_voltage.py:527-538 | null gives None; otherwise one buffer query, logged unless its write faults, whose reply is read by LatestValue; a failure gives None |
| TriggeredMeasure.TriggeredPanel.MeasurementWorker | 2450/2450_gui_triggered_measure_voltage.py:300-360 | a null instrument or failed query fails with its message; otherwise the reply is Classify'd; a finished one is followed by the buffer query; the commands written and the queues left are exactly those of the one or two queries |
| TriggeredMeasure.TriggeredPanel.Finish | 2450/2450_gui_triggered_measure_voltage.py:362-420 | running cleared; the status is FinishStatus of the outcome and a value is appended exactly when one is shown; a remembered output-off state is restored by one OUTPUT OFF write and forgotten |
| ReceiveMeasure.ResultStatus | 2450/2450_receive_measure_voltage_gui.py:330-339 | a TIMEOUT/INVALID_MODE/CANCEL word passes through; a number is COMPLETE with round-half-even count; other text is itself or UNKNOWN |
| ReceiveMeasure.Classify | 2450/2450_receive_measure_voltage_gui.py:321-339 | no lines is NO_RESULT; otherwise progress is every line but the last |
| ReceiveMeasure.CountLineCompletes | 2450/2450_receive_measure_voltage_gui.py:334-341 | a printed count ends COMPLETE with that count, and the buffer is read iff it is positive |
| ReceiveMeasure.ResultWordPassesThrough | 2450/2450_receive_measure_voltage_gui.py:331-333 | a result word is the status, with no buffer read |
| ReceiveMeasure.OtherLineReported | 2450/2450_receive_measure_voltage_gui.py:338-339 | a non-numeric, non-word line is reported as its stripped text (UNKNOWN if blank) |
| ReceiveMeasure.MeasurementWorker | 2450/2450_receive_measure_voltage_gui.py:310-355 | null or a failed query is an error; otherwise the verdict is Classify(reply) and the buffer is read only when COMPLETE with a positive count |
| ReceiveMeasure.ButtonState | 2450/2450_receive_measure_voltage_gui.py:454-462 | start iff connected and idle, cancel iff connected and running; never both |
| RunBookkeeping.LiveCommanded | 2450/2450_gui_iv_multiple.py:327-331 | one commanded level per live point |
| RunBookkeeping.LiveCommandedFollowsPath | 2450/2450_gui_iv_multiple.py:327-331 | the k-th live point is commanded the level at command index + k while the path lasts |
| RunBookkeeping.LiveVoltages | 2450/2450_gui_iv_multiple.py:333 | live points append their measured voltages in order |
| RunBookkeeping.LiveCurrents | 2450/2450_gui_iv_multiple.py:334 | live points append their currents in order |
| RunBookkeeping.LiveCommands | 2450/2450_gui_iv_multiple.py:326-335 | live points append their commanded levels and advance the command index by one each |
| RunBookkeeping.LivePointsShape | 2450/2450_gui_iv_multiple.py:326-347 | the run's three lists stay the same length while points stream in |
| RunBookkeeping.SegmentStep | 2450/2450_gui_iv_multiple.py:322-385 | a whole segment keeps the run's lists aligned |
| RunBookkeeping.SegmentStepAppends | 2450/2450_gui_iv_multiple.py:359-385 | after a segment the voltage and current lists are the old ones plus the segment's, and earlier commanded levels are untouched |
| RunBookkeeping.RunFold | 2450/2450_gui_iv_multiple.py:322-385 | a run's lists stay aligned over all its segments |
| RunBookkeeping.RunFoldConcat | 2450/2450_gui_iv_multiple.py:322-385 | a run's voltages and currents are the concatenation of its segments' |
| RunBookkeeping.FinishAgrees | 2450/2450_gui_iv_multiple.py:362-380 | when each segment's readback matches its live points, the written splice agrees with the intended one |
| RunBookkeeping.FinishAgreesAligned | 2450/2450_gui_iv_multiple.py:362-380 | the same, stated on the aligned lists directly |
| RunBookkeeping.FinishAsWrittenMisplaces | 2450/2450_gui_iv_multiple.py:362-380 | the splice as written, with readbacks and no live points, drops the first segment's readings and puts its commanded levels after the second's |
| RunBookkeeping.FinishKeepsSegments | 2450/2450_gui_iv_multiple.py:362-380 | the corrected splice keeps both segments' readings and commanded levels in order |
| RunBookkeeping.RunEntry.constructor | 2450/2450_gui_iv_multiple.py:301-316 | a new run entry has its index and empty lists |
| RunBookkeeping.RunEntry.HandlePoint | 2450/2450_gui_iv_multiple.py:326-347 | one live point updates the lists by PointStep and nothing else |
| RunBookkeeping.RunEntry.FinishSegment | 2450/2450_gui_iv_multiple.py:359-385 | the segment is spliced into the lists by the corrected Finish |
| RunBookkeeping.RunEntry.LogSegment | 2450/2450_gui_iv_multiple.py:357-361 | the printed lines are appended, then the header and the segment lines again, as the source does |
| RunBookkeeping.RunLogDuplicates | 2450/2450_gui_iv_multiple.py:357-361 | as written, each segment's lines appear before and after its header; corrected, once after it |
| RunBookkeeping.RunLogLength | 2450/2450_gui_iv_multiple.py:357-361 | the corrected log has a header per segment plus each line once; as written each line twice |
| RunBookkeeping.SweepSession.constructor | 2450/2450_gui_iv_multiple.py:42-66 | a new window is disconnected with no script loaded |
| RunBookkeeping.SweepSession.EnsureScriptLoaded | 2450/2450_gui_iv_multiple.py:207-229 | not connected is an error; a loaded script is a no-op; a missing file is an error; otherwise the upload is written and succeeds iff every write does |
| RunBookkeeping.SweepSession.ApplyWiringMode | 2450/2450_gui_iv_multiple.py:466-486 | no instrument is a no-op; the three terminal/sense commands are written up to the first failure, which is reported with the wiring name |
| RunBookkeeping.LoadCommands | 2450/2450_gui_iv_multiple.py:215-223 | the upload is loadscript, the script lines, the wrapper function, endscript and the run call |
| RunBookkeeping.WiringCommands | 2450/2450_gui_iv_multiple.py:470-483 | a mode starting with "4" selects 4-wire sense, anything else 2-wire |
| RunBookkeeping.RecordSegment | 2450/2450_gui_iv_multiple.py:359-385 | one segment is spliced into the entry by SegmentStep, the adjusted flag is or-ed with SegmentAdjusts, and the printed lines are logged as the source does |
| RunBookkeeping.RunEntry.HandlePoints | 2450/2450_gui_iv_multiple.py:326-341 | the lists after the printed points are LivePoints of them; the run is adjusted iff it already was or some point strays from its commanded level by more than the tolerance |
| RunBookkeeping.SweepRun | 2450/2450_gui_iv_multiple.py:302-385 | the result, the commands written and the queues left are exactly SegmentsTrace over the planned segments; a completed run is a fresh entry that records every segment in order, with the adjusted flag as RunAdjusted says |
| RunBookkeeping.SweepSegment | 2450/2450_gui_iv_multiple.py:322-385 | one pass of the segment loop: the stop flag, the sweep and the commands follow SegmentOrCancel, and a swept segment extends the entry's fold, log and adjusted flag by exactly that segment |
| RunBookkeeping.SweepWorker | 2450/2450_gui_iv_multiple.py:289-392 | a zero step is unhandled with the planner's message and nothing polled; no instrument fails with "not connected"; otherwise the opening (script upload, wiring, stop polls) and the runs are exactly OpeningTrace then RunsTrace, and a completed sweep is one recorded entry per run over SegmentList |
| RunBookkeeping.Prepare | 2450/2450_gui_iv_multiple.py:295-301 | no instrument fails with "not connected"; otherwise the halt, the script flag, the commands written and the queues left are exactly OpeningTrace: the upload, a stop poll, the wiring, a stop poll |
| RunBookkeeping.LoadAndPoll | 2450/2450_gui_iv_multiple.py:296-298 | the script upload and the stop poll after it, exactly as UploadTrace: a missing file or failed write ends the sweep, a set flag quits |
| RunBookkeeping.WireAndPoll | 2450/2450_gui_iv_multiple.py:299-301 | the wiring commands and the stop poll after them, exactly as WiringTrace |
| RunBookkeeping.PlanSegments | 2450/2450_gui_iv_multiple.py:292 | planning fails only with "Step voltage must not be zero.", and a plan's segments are SegmentList |
| RunBookkeeping.PrepareAndRun | 2450/2450_gui_iv_multiple.py:294-392 | after planning: the opening as OpeningTrace, then the runs as RunsTrace, completed or failed with the trace's message, never unhandled |
| RunBookkeeping.SweepRuns | 2450/2450_gui_iv_multiple.py:302-385 | the result, the commands written and the queues left are exactly RunsTrace; completed runs are one entry per requested run, each recording its segments in order |
| RunBookkeeping.RunOnce | 2450/2450_gui_iv_multiple.py:302-385 | one pass of the run loop: a set stop flag is "Sweep cancelled." with nothing written; otherwise the run's traffic and result are exactly SegmentsTrace, and a completed run is a fresh entry that records it |
| RunBookkeeping.RunAdjustedIff | 2450/2450_gui_iv_multiple.py:336-375 | a run is flagged adjusted iff some segment's live points or readbacks leave the commanded path by more than the tolerance |
| RunBookkeeping.FlagKept | 2450/2450_gui_iv_multiple.py:336-337 | once set, the adjusted flag stays set over later segments |
| RunBookkeeping.FlagSetLast | 2450/2450_gui_iv_multiple.py:374-375 | a segment that diverges sets the flag |
| RunBookkeeping.SegmentOnPathKeepsFlag | 2450/2450_gui_iv_multiple.py:362-376 | a segment whose printed and read-back voltages lie on the commanded path does not set the flag |
| RunBookkeeping.OffPathRowSetsFlag | 2450/2450_gui_iv_multiple.py:336-337 | a printed row off the commanded level by more than the tolerance sets the flag |
| RunBookkeeping.NoSelfDivergence | 2450/2450_gui_iv_multiple.py:374-375 | a list never diverges from itself |
| RunBookkeeping.AdjustTolerance | 2450/2450_gui_iv_multiple.py:294 | the tolerance is max(abs(step)·2%, 1e-6) |
| RunBookkeeping.EntryLog | 2450/2450_gui_iv_multiple.py:669-676 | the completion log per run is the header, an "adjusted" line iff the run was adjusted, then its printed lines |
| RunBookkeeping.EntryLogAdjusted | 2450/2450_gui_iv_multiple.py:669-676 | the "adjusted" line appears iff the flag is set, and the printed lines follow it unchanged |
| Sweep2602.AppendUnique | 2602b/test_2602b_gui_iv_multiple.py:103-105 | the list grows by the value iff its last entry is not close to it; it then ends close to the value and stays spread |
| Sweep2602.AppendUniqueBounds | 2602b/test_2602b_gui_iv_multiple.py:103-105 | appending a value within bounds keeps the list within bounds |
| Sweep2602.SingleRunVoltages | 2602b/test_2602b_gui_iv_multiple.py:89-136 | a step isclose to 0 is the zero-step error, and only then; otherwise the list is Ramp of abs(positive), -abs(negative) and abs(step), which has the single-run shape |
| Sweep2602.BothLegs | 2602b/test_2602b_gui_iv_multiple.py:107-136 | the whole run is exactly Ramp, which has the single-run shape: from 0, through each target beyond the tolerance, back near 0 |
| Sweep2602.FirstHalf | 2602b/test_2602b_gui_iv_multiple.py:107-121 | the part up to the end of the positive leg is exactly FirstHalfList: it starts at 0, ends near 0, stays within 0 and the target and reaches the target when it lies beyond the tolerance |
| Sweep2602.ShapeWithoutNegative | 2602b/test_2602b_gui_iv_multiple.py:125-136 | without a negative leg the positive leg is already a whole run |
| Sweep2602.ShapeAfterNegative | 2602b/test_2602b_gui_iv_multiple.py:125-136 | the negative leg completes a whole run |
| Sweep2602.StepUp | 2602b/test_2602b_gui_iv_multiple.py:111-113 | stepping up appends exactly UpSteps through AppendAll, staying within bounds and spread |
| Sweep2602.StepDown | 2602b/test_2602b_gui_iv_multiple.py:117-119 | stepping down appends exactly DownSteps through AppendAll, staying within bounds and spread |
| Sweep2602.UpStepsValues | 2602b/test_2602b_gui_iv_multiple.py:111-113 | the i-th value stepped up is current + (i+1)·step, every one below target - tol, and one more step would not be |
| Sweep2602.DownStepsValues | 2602b/test_2602b_gui_iv_multiple.py:117-119 | the i-th value stepped down is current - (i+1)·step, every one above target + tol, and one more step would not be |
| Sweep2602.AppendAllSpread | 2602b/test_2602b_gui_iv_multiple.py:103-105 | appending values that are already spread appends them all |
| Sweep2602.AppendAllExtends | 2602b/test_2602b_gui_iv_multiple.py:103-105 | appending values within bounds only extends the list within those bounds |
| Sweep2602.RampOrder | 2602b/test_2602b_gui_iv_multiple.py:107-136 | the run is the first half followed by a negative leg within [neg, 0] |
| Sweep2602.Steps | 2602b/test_2602b_gui_iv_multiple.py:111-119 | one stepping loop, up or down, appends exactly LegSteps |
| Sweep2602.StepToTarget | 2602b/test_2602b_gui_iv_multiple.py:110-120 | a leg steps toward its target and appends the target, ending close to it |
| Sweep2602.ReturnToZero | 2602b/test_2602b_gui_iv_multiple.py:115-134 | the return leg steps back to 0 and appends 0, keeping the earlier target in place |
| Sweep2602.PositiveLeg | 2602b/test_2602b_gui_iv_multiple.py:108-120 | the leg 0 to +target and back is exactly PositiveLegList: it starts at 0, ends near 0 and reaches the target |
| Sweep2602.NegativeLeg | 2602b/test_2602b_gui_iv_multiple.py:125-134 | the leg 0 to -target and back is exactly NegativeLegList: it ends near 0 and reaches the target |
| Sweep2602.ParseTotalRuns | 2602b/test_2602b_gui_iv_multiple.py:75-86 | accepted iff the text is a whole number of at least 1; a non-number is reported |
| Sweep2602.Cycled | 2602b/test_2602b_gui_iv_multiple.py:146-150 | the list repeated and cut to the length: entry i is single[i mod n] |
| Sweep2602.RepeatRuns | 2602b/test_2602b_gui_iv_multiple.py:145-150 | the repeat loop covers the length with whole runs, one run when the length fits |
| Sweep2602.BuildVoltageSequence | 2602b/test_2602b_gui_iv_multiple.py:139-150 | errors of the single run or of the run count pass through; an empty run gives []; otherwise the run cycled to the length (a negative length cuts from the end, as Python slicing does) |
| Sweep2602.SegmentSize | 2602b/test_2602b_gui_iv_multiple.py:381-386 | a segment takes no more than is pending and never crosses the end of a run |
| Sweep2602.SegmentInsideRun | 2602b/test_2602b_gui_iv_multiple.py:381-386 | every point of a segment belongs to the same run |
| Sweep2602.SegmentEndsAtBoundary | 2602b/test_2602b_gui_iv_multiple.py:381-386 | a segment cut short of the pending count ends exactly at a run boundary |
| Sweep2602.LaunchConserves | 2602b/test_2602b_gui_iv_multiple.py:405-409 | launching keeps segment start + segment points + pending equal to the total |
| Sweep2602.StopConserves | 2602b/test_2602b_gui_iv_multiple.py:689-694 | stopping never loses pending points and, with a count inside the segment, keeps the books |
| Sweep2602.ResumeStopResume | 2602b/test_2602b_gui_iv_multiple.py:654-661 | resume, launch and stop leave pending + completed equal to the total |
| Sweep2602.MicroampsRoundTrip | 2602b/test_2602b_gui_iv_multiple.py:307-317 | "n µA" reads back as n·1e-6 |
| Sweep2602.MilliampsRoundTrip | 2602b/test_2602b_gui_iv_multiple.py:307-317 | "n mA" reads back as n·1e-3 |
| Sweep2602.AmpsRoundTrip | 2602b/test_2602b_gui_iv_multiple.py:307-317 | "n A" reads back as n |
| Sweep2602.SweepState.constructor | 2602b/test_2602b_gui_iv_multiple.py:330-352 | the reset state is unconfigured with zero counters |
| Sweep2602.SweepState.VoltageFor | 2602b/test_2602b_gui_iv_multiple.py:182-188 | 0 without a run; otherwise the run's level at index mod points |
| Sweep2602.SweepState.VoltageSeries | 2602b/test_2602b_gui_iv_multiple.py:284-304 | count levels, none when count ≤ 0 |
| Sweep2602.SweepState.SeriesFollowsIndex | 2602b/test_2602b_gui_iv_multiple.py:288-291 | with a configured run, entry i is VoltageFor(i) |
| Sweep2602.SweepState.SeriesWithoutRun | 2602b/test_2602b_gui_iv_multiple.py:292-304 | without one, a freshly computed run is cycled, and a failure or empty run gives zeros |
| Sweep2602.SweepState.ConfigureTriggerModel | 2602b/test_2602b_gui_iv_multiple.py:523-586 | no instrument or no points is an error with nothing changed; the setup commands are written up to the first failure; on success the definition and counters are reset to the new sweep |
| Sweep2602.SweepState.LaunchNextSegment | 2602b/test_2602b_gui_iv_multiple.py:371-416 | no instrument or nothing pending returns false; no points is an error; a launch writes the segment's commands and moves the counters by Launched; a failed write leaves the counters, sends the launch commands up to the fault, and marks the timer started iff its reset went out |
| Sweep2602.SweepState.UpdateProgressFromBuffer | 2602b/test_2602b_gui_iv_multiple.py:419-428 | the result, the readings list, the commands written and the queues left are exactly ProgressTrace: the count query, "Unexpected buffer count: " for a non-number, then the new readings fetched; only success moves the index, to the count capped at the total |
| Sweep2602.SweepState.StopSweep | 2602b/test_2602b_gui_iv_multiple.py:675-706 | nothing configured or not running changes nothing; a running sweep writes the abort, polls progress as AbortTrace, and is paused by Stopped at the count read back, or at the old index when that read fails |
| Sweep2602.SweepState.FetchNewMeasurements | 2602b/test_2602b_gui_iv_multiple.py:257-281 | the loop queries each new index up to the target, exactly as FetchFrom: a failed read or a reading that is not a number stops it with "Invalid current value at index i: …" |
| Sweep2602.FetchCurrents | 2602b/test_2602b_gui_iv_multiple.py:263-272 | the readings kept, the error, the queries written and the replies left are exactly FetchFrom from the first index not yet held |
| Sweep2602.ReadCurrent | 2602b/test_2602b_gui_iv_multiple.py:267-272 | one index: a failed query or a reply that is not a number ends the fetch as FetchFrom does; a number is kept and the fetch moves to the next index |
| Sweep2602.SweepState.AbortAndPoll | 2602b/test_2602b_gui_iv_multiple.py:686-694 | the abort write, its error swallowed, then the progress poll, exactly as AbortTrace |
| Sweep2602.FetchFromKeeps | 2602b/test_2602b_gui_iv_multiple.py:257-281 | fetching only appends to the readings already held |
| Sweep2602.FetchFromCount | 2602b/test_2602b_gui_iv_multiple.py:263-266 | a fetch without failure adds one reading per index from start to target, none when the target is below the start |
| Sweep2602.ProgressTrace | 2602b/test_2602b_gui_iv_multiple.py:419-428 | an accepted count never exceeds the total |
| Sweep2602.ProgressNothingNew | 2602b/test_2602b_gui_iv_multiple.py:419-428 | a count no larger than the readings held fetches nothing and gives the count capped at the total |
| Sweep2602.ProgressBadReading | 2602b/test_2602b_gui_iv_multiple.py:267-271 | a reading that is not a number fails with its index and text after one reading query |
| Sweep2602.LaunchListsSlice | 2602b/test_2602b_gui_iv_multiple.py:381-392 | the first launch command lists exactly the run's levels from the offset for the segment's size |
| Sweep2602.SendSegment | 2602b/test_2602b_gui_iv_multiple.py:392-402 | the arm commands, the timer reset iff asked, and the start commands are written up to the first fault; it succeeds iff all go out, and reports the timer reset sent iff it went out |
| TriggerListener.LuaLower | 2450/2450_receive_trigger.py:97 | lower-casing keeps the length, leaves no upper-case letter, and changes nothing already lower-case |
| TriggerListener.ResolveEdge | 2450/2450_receive_trigger.py:93-103 | the result always names a table edge; no name or an unknown one falls back to falling |
| TriggerListener.CollapseSpaces | 2450/2450_receive_trigger.py:110 | runs of blanks become one underscore, so no blank is left |
| TriggerListener.CollapseRun | 2450/2450_receive_trigger.py:110 | a run of blanks between words becomes exactly one "_" |
| TriggerListener.NormalizeModeKey | 2450/2450_receive_trigger.py:105-112 | the key has no blank and no upper case; no name gives the default; a blank-free name is just lower-cased |
| TriggerListener.ResolveMode | 2450/2450_receive_trigger.py:114-121 | the result always names a table mode; an unknown key falls back to trigger_in |
| TriggerListener.ResolveLine | 2450/2450_receive_trigger.py:123-134 | the line is always 1..6, 1 by default, clamped at both ends, and otherwise floor(value + 0.0001) |
| TriggerListener.ResolveLineNearWhole | 2450/2450_receive_trigger.py:123-134 | a value just below or above n resolves to n |
| TriggerListener.ResolveIgnoresCase | 2450/2450_receive_trigger.py:97-116 | edge and mode names are matched without regard to case |
| TriggerListener.NormalizeIdempotent | 2450/2450_receive_trigger.py:105-121 | normalising or resolving an already resolved key changes nothing |
| TriggerListener.WaitLoop | 2450/2450_receive_trigger.py:177-198 | the chunked wait: each wait is at most 0.25 s, all but the last are full, with a timeout the waits add up to at most the timeout, the loop stops at the first trigger or cancel, stopping for neither means the timeout has been used up, and with a timeout the last wait is min(0.25, timeout − elapsed) |
| TriggerListener.ReceiveTriggerWait | 2450/2450_receive_trigger.py:160-213 | INVALID_MODE iff the mode is not a trigger input (no wait then, for any timeout, edges and cancel); otherwise CANCEL iff cancelled, TRIGGER iff the last wait saw an edge, TIMEOUT only once the timeout is used up |
| TriggerListener.FormatTimeoutArg | 2450/2450_receive_trigger.py:590-601 | blank means no timeout; a non-number or a negative number is an error; otherwise the number |
| TriggerListener.ResolveLineNumber | 2450/2450_receive_trigger.py:603-612 | blank gives line 1; a non-integer or a line outside 1..6 is an error |
| TriggerListener.ResolveLineNumberRoundTrip | 2450/2450_receive_trigger.py:603-612 | a typed line is accepted iff 1..6, as itself |
| TriggerListener.ResolveModeSelection | 2450/2450_receive_trigger.py:614-620 | accepted iff the label is one of the mode choices, giving its key |
| TriggerListener.ModeKeyResolves | 2450/2450_receive_trigger.py:31-44 | every panel mode key is resolved by the script to that same mode |
| TriggerListener.EdgeOptionsResolve | 2450/2450_receive_trigger.py:27 | every panel edge option is a script edge name |
| TriggerListener.LineReachesScript | 2450/2450_receive_trigger.py:603-612 | a line accepted by the panel reaches the script unchanged |
| TriggerListener.WaitableLabels | 2450/2450_receive_trigger.py:31-44 | only the two trigger-control labels select a mode the script will wait on |
| TriggerListener.FinishOutcome | 2450/2450_receive_trigger.py:501-545 | trigger received iff the reply is TRIGGER; CANCEL (or a cancel with no reply) is cancelled; a failure is reported only when no cancel was asked; any other reply is shown as it is |
| TriggerListener.ScriptWordsClassified | 2450/2450_receive_trigger.py:508-524 | each word the script can return is classified as its own outcome |
| TriggerListener.WaitArguments | 2450/2450_receive_trigger.py:450-470 | the wait starts iff the timeout, line and mode all parse, with those values; a timeout error is reported first |
| TriggerListener.SetButtons | 2450/2450_receive_trigger.py:640-653 | setup and wait iff connected and idle, cancel iff connected and waiting, the display buttons iff connected |
| TriggerListener.ListenerPanel.constructor | 2450/2450_receive_trigger.py:228-261 | a new panel is disconnected and idle |
| TriggerListener.ListenerPanel.LoadScript | 2450/2450_receive_trigger.py:398-419 | with an instrument, the upload is written and the script counts as loaded iff every write succeeded |
| TriggerListener.ListenerPanel.CheckReady | 2450/2450_receive_trigger.py:622-632 | ready iff connected and the script is, or gets, loaded; a connected panel writes the upload only when the script was not loaded, and is loaded afterwards iff it was or the upload succeeded |
| TriggerListener.StartSpec | 2450/2450_receive_trigger.py:444-470 | readiness, then the already-waiting check, then the arguments; it starts iff ready, idle and the arguments parse, and only the readiness check writes (the upload when the script was not loaded) |
| TriggerListener.ListenerPanel.StartWait | 2450/2450_receive_trigger.py:444-484 | not connected is refused with the connect text; otherwise result, write log, faults and loaded flag are StartSpec of the old state, and a start sets waiting and the wait context |
| TriggerListener.ListenerPanel.WaitWorker | 2450/2450_receive_trigger.py:487-498 | one wait query; the reply is upper-cased and stripped, or a failure text |
| TriggerListener.ListenerPanel.CompleteWait | 2450/2450_receive_trigger.py:501-545 | the outcome is FinishOutcome of the reply, and waiting, cancel and context are cleared |
| TriggerListener.ListenerPanel.CancelWait | 2450/2450_receive_trigger.py:548-557 | only while waiting: the cancel command is written and cancel_requested set iff the write succeeded |
| TriggerListener.SetupSpec | 2450/2450_receive_trigger.py:421-442 | readiness, then the line, then the mode, each with its own message; it succeeds iff ready, both parse and the setup write goes out, and the log is the upload if one ran followed by the setup command when it was sent |
| TriggerListener.ListenerPanel.SetupTrigger | 2450/2450_receive_trigger.py:421-442 | not connected is refused with the connect text; otherwise result, write log, faults and loaded flag are SetupSpec of the old state |
| TriggerListener.ListenerPanel.Disconnect | 2450/2450_receive_trigger.py:370-396 | the instrument is released; a waiting script is sent the abort first |
| SharedSession.SetLock | 2450/2450_receive_and_iv_multiple.py:55-67 | a repeated lock state is a no-op; locking saves the status and shows the busy text; unlocking forgets the saved status |
| SharedSession.LockUnlockRestores | 2450/2450_receive_and_iv_multiple.py:55-67 | locking then unlocking restores the previous status, or the unlocked text when it was empty |
| SharedSession.SetLockIdempotent | 2450/2450_receive_and_iv_multiple.py:55-58 | setting the same lock twice is setting it once |
| SharedSession.LockingListener.constructor | 2450/2450_receive_and_iv_multiple.py:39-47 | a new listener is unlocked with nothing saved |
| SharedSession.LockingListener.SetInstrumentLock | 2450/2450_receive_and_iv_multiple.py:55-67 | the lock state moves by SetLock and the listener's session is untouched |
| SharedSession.LockingListener.StartWait | 2450/2450_receive_and_iv_multiple.py:69-72 | while locked the wait is refused with the busy text and nothing is written; unlocked, the result, the write log, the faults and the loaded flag are StartSpec of the old panel, with the listener's wait state |
| SharedSession.LockingListener.SetupTrigger | 2450/2450_receive_and_iv_multiple.py:74-77 | while locked the setup is refused and nothing is written; unlocked, the result, the write log, the faults and the loaded flag are SetupSpec of the old panel |
| SharedSession.LockingListener.Disconnect | 2450/2450_receive_and_iv_multiple.py:79-82 | while locked the disconnect is refused and the session kept; otherwise the listener disconnects |
| SharedSession.LockingListener.CompleteWait | 2450/2450_receive_and_iv_multiple.py:84-89 | the wait completes as in the listener, and the trigger callback fires iff the reply was TRIGGER |
| SharedSession.IntegratedSweep.constructor | 2450/2450_receive_and_iv_multiple.py:94-97 | the sweep panel starts with no shared session |
| SharedSession.IntegratedSweep.AttachSharedInstrument | 2450/2450_receive_and_iv_multiple.py:99-116 | refused while a sweep runs; otherwise the instrument is borrowed and the script must be reloaded |
| SharedSession.IntegratedSweep.ReleaseSharedInstrument | 2450/2450_receive_and_iv_multiple.py:118-129 | a borrowed instrument is dropped; an own one is kept |
| SharedSession.IntegratedSweep.DisconnectInstrument | 2450/2450_receive_and_iv_multiple.py:131-135 | a borrowed session is never disconnected from the sweep side |
| SharedSession.IntegratedSweep.BaseStartSweep | 2450/2450_gui_iv_multiple.py:231-259 | a sweep starts running iff there is an instrument and the parameters parse |
| SharedSession.ReceiveAndIV.constructor | 2450/2450_receive_and_iv_multiple.py:188-208 | both tabs start unlocked and idle |
| SharedSession.ReceiveAndIV.NotifyRunState | 2450/2450_receive_and_iv_multiple.py:168-170 | the sweep's run state sets the listener's lock |
| SharedSession.ReceiveAndIV.StartSweep | 2450/2450_receive_and_iv_multiple.py:140-143 | starting a sweep keeps the two panels consistent |
| SharedSession.ReceiveAndIV.HandleTrigger | 2450/2450_receive_and_iv_multiple.py:213-236 | ignored while a sweep runs or with no instrument; otherwise the session is lent and the listener locked, and a sweep that does not start hands it back and unlocks |
| SharedSession.ReceiveAndIV.SweepEnded | 2450/2450_receive_and_iv_multiple.py:145-155 | a finished or failed sweep unlocks the listener and returns a borrowed session |
| SharedSession.ReceiveAndIV.WaitFinished | 2450/2450_receive_and_iv_multiple.py:84-89 | a completed wait triggers the sweep handler iff the trigger was received |
| SharedSession.ReceiveAndIV.ListenerDisconnect | 2450/2450_receive_and_iv_multiple.py:79-82 | the listener cannot disconnect while a sweep runs |
| SharedSession.ReceiveAndIV.ListenerStartWait | 2450/2450_receive_and_iv_multiple.py:69-72 | the listener cannot start a wait while a sweep runs |
| TimeUnits.FloatOf | 2450_33522b_measVoltage.py:284 | `float(text)`: accepted iff the text is a float, and then that value |
| TimeUnits.SecondUnitsWellFormed | 2450_33522b_measVoltage.py:272-279 | the s/ms/us/µs/ns/ps table is searched longest suffix first, with distinct suffixes |
| TimeUnits.SecondUnitsNoMicroWellFormed | 2602b_33522b_measVoltage.py:543 | the same for the table without µs |
| TimeUnits.BurstUnitsWellFormed | sdg1020/1020_burst_pulse_sync_gui.py:269 | the same for the SDG1020 burst table |
| TimeUnits.LatchUnitsWellFormed | 3021b/3021b_single_trigger.py:169 | the same for the latch table with khz/hz/mhz |
| TimeUnits.MatchFrom | 2450_33522b_measVoltage.py:280-281 | the search returns the first suffix the text ends with, and None only when none does |
| TimeUnits.OwnSuffixFirst | 2450_33522b_measVoltage.py:280-283 | after a digit, a unit's own suffix is the first one the longest-first search matches |
| TimeUnits.NoSuffixAfterDigit | 2450_33522b_measVoltage.py:280-284 | a bare number matches no suffix and is read as seconds |
| TimeUnits.ScaleSuffixRoundTrip | 2450_33522b_measVoltage.py:280-283 | a number followed by a table suffix is scaled by that suffix's factor |
| TimeUnits.NormalizeNumberUnit | 2450_33522b_measVoltage.py:269 | strip, lower-casing and blank removal turn a typed number and unit into the canonical spelling |
| TimeUnits.ParseTime | 33522b/33522b_pulse_single_gui.py:314-335 | blank text is refused with the panel's message |
| TimeUnits.ParseTimeRoundTrip | 33522b/33522b_pulse_single_gui.py:314-335 | any whole number followed by any of the table's units, in any letter case, reads back as number × factor |
| TimeUnits.ParseTimePlainSeconds | 33522b/33522b_pulse_single_gui.py:334-335 | a whole number with no unit is that many seconds |
| TimeUnits.ParseTimeLenient | 3021b/3021b_single_trigger.py:165-173 | blank text is refused with the field message |
| TimeUnits.TryFromSkips | 3021b/3021b_single_trigger.py:170-173 | suffixes that do not match are skipped without effect |
| TimeUnits.ParseTimeLenientRoundTrip | 3021b/3021b_single_trigger.py:165-173 | the latch search, which skips a suffix whose number fails, reads a number and unit just as the returning one does |
| TimeUnits.ParseSeconds | 2450_33522b_measVoltage.py:268-284 | blank is "<field> is required."; the same code also at `33522b/33522b_trigger_and_pulse.py:282-299`, `33522b/33522b_ext_trig_ch2.py:305-322` |
| TimeUnits.ParseSecondsRoundTrip | 2450_33522b_measVoltage.py:268-284 | n followed by any unit in lower or upper case is n × factor; a bare n is n seconds |
| TimeUnits.ParseSecondsNoMicro | 2602b_33522b_measVoltage.py:539-548 | blank is "<field> is required." |
| TimeUnits.ParseSecondsNoMicroRoundTrip | 2602b_33522b_measVoltage.py:539-548 | n followed by s/ms/us/ns/ps is n × factor; a bare n is n seconds |
| TimeUnits.ParseBurstTime | sdg1020/1020_burst_pulse_sync_gui.py:266-273 | blank is "Empty Value" |
| TimeUnits.ParseBurstTimeRoundTrip | sdg1020/1020_burst_pulse_sync_gui.py:266-273 | n followed by s/ms/us/µs/ns is n × factor; a bare n is n seconds |
| TimeUnits.ParseContTimeAsWritten | sdg1020/1020_cont_pulse_gui.py:177-193 | blank is "Period cannot be empty" (table with the mis-encoded `Âµs` entry) |
| TimeUnits.ContMicroUnreachable | sdg1020/1020_cont_pulse_gui.py:178-191 | the `Âµs` entry can never match, since the searched text is lower-cased |
| TimeUnits.ContMicroRejected | sdg1020/1020_cont_pulse_gui.py:177-193 | as written, "10µs" is refused |
| TimeUnits.ContMicroMatchesSeconds | sdg1020/1020_cont_pulse_gui.py:189-192 | of the as-written table only the `s` entry matches "10µs" |
| TimeUnits.ParseContTime | sdg1020/1020_cont_pulse_gui.py:177-193 | the corrected parser: blank is "Period cannot be empty" |
| TimeUnits.ContMicroAccepted | sdg1020/1020_cont_pulse_gui.py:177-193 | corrected, "10µs" is 1e-5 s |
| TimeUnits.ParseContTimeRoundTrip | sdg1020/1020_cont_pulse_gui.py:177-193 | corrected, n followed by any of s/ms/us/µs/ns/ps is n × factor |
| TimeUnits.ParseLatchTime | 3021b/3021b_single_trigger.py:165-173 | blank is "<field> is required." |
| TimeUnits.ParseLatchTimeRoundTrip | 3021b/3021b_single_trigger.py:165-173 | n followed by any time or frequency unit, in lower or upper case, is n × factor |
| TimeUnits.DecimalDigitsIsReal | 3021b/3021b_single_trigger.py:159 | text passing the `replace('.', '', 1).isdigit()` test is a float, so the multiplier branch cannot fail |
| TimeUnits.ParseFloatSI | 3021b/3021b_single_trigger.py:155-162 | blank is "<field> is required." |
| TimeUnits.ParseFloatSIMultiplier | 3021b/3021b_single_trigger.py:159-160 | n followed by k/M/m/u/n is n times that multiplier (M mega, m milli) |
| TimeUnits.ParseFloatSIDefers | 3021b/3021b_single_trigger.py:161-162 | text that is neither a multiplied decimal nor a float goes on to the latch time parser |
| TimeUnits.ParseFloatSIFallsBack | 3021b/3021b_single_trigger.py:155-173 | n followed by a time or frequency unit is read by the latch parser |
| TimeUnits.ParseMultipliedAsWritten | 3021b/doesnt_work_3021b_trigger_and_pulse.py:166-179 | any failure is "Invalid value for <name>" |
| TimeUnits.UnitDropsMultiplier | 3021b/doesnt_work_3021b_trigger_and_pulse.py:169-177 | as written, a unit after the multiplier makes it fall away: "10us" reads as 10 |
| TimeUnits.ParseMultiplied | 3021b/doesnt_work_3021b_trigger_and_pulse.py:166-179 | the corrected reading: any failure is "Invalid value for <name>" |
| TimeUnits.ParseMultipliedRoundTrip | 3021b/doesnt_work_3021b_trigger_and_pulse.py:166-179 | corrected, n followed by a multiplier letter and unit letters is n × multiplier |
| TimeUnits.MultipliedReadingsDiffer | 3021b/doesnt_work_3021b_trigger_and_pulse.py:166-179 | the two readings differ on every positive number written with a multiplier and a unit |
| TimeUnits.ParseMultipliedAgrees | 3021b/doesnt_work_3021b_trigger_and_pulse.py:166-179 | without trailing unit letters the two readings agree |
| TimeUnits.RewriteMicro | sdg1020/1020_ch1_ch2_trigger_pulse.py:142 | "us" after digits is rewritten to "e-6" |
| TimeUnits.RewriteSeconds | sdg1020/1020_ch1_ch2_trigger_pulse.py:142 | a plain "s" is not rewritten |
| TimeUnits.ExponentTextMicro | sdg1020/1020_ch1_ch2_trigger_pulse.py:141-143 | "nus" reads as n × 10^-6 |
| TimeUnits.ExponentTextMilli | sdg1020/1020_ch1_ch2_trigger_pulse.py:141-143 | "nms" reads as n × 10^-3 |
| TimeUnits.ExponentTextNano | sdg1020/doesnt_work_1020_manual_burst_pulse_sync_gui.py:214-216 | "nns" reads as n × 10^-9 |
| TimeUnits.ExponentTextRejectsSeconds | sdg1020/1020_ch1_ch2_trigger_pulse.py:141-143 | "ns" with a plain s unit is refused: this parser knows no seconds suffix |
| TimeUnits.ScaleSeconds | 33522b/33522b_pulse_single_gui.py:345-355 | the unit is s at or above 1, otherwise the largest of ms/µs/ns in which the value is at least 1 (so it lies in [1, 1000)), else ps |
| TimeUnits.ScaleMonotone | 33522b/33522b_pulse_single_gui.py:345-355 | a longer duration never gets a smaller unit |
| TimeUnits.FormatSecondsSI | 33522b/33522b_pulse_single_gui.py:338-355 | a non-positive duration shows nothing; otherwise a positive value in the chosen unit; the same code also at `3021b/3021b_single_trigger.py:176-183` |
| TimeUnits.PeriodScaled | 3021b/3021b_python_test_panel.py:563-573 | the scaled value times the frequency is the unit's factor; up to 1 Hz in seconds, up to 1 GHz within [1, 1000) |
| LoadChoice.ReadLoad | 3021b/test_3021b_pulse_single_gui.py:205-216 | blank leaves the load alone; INF/INFINITE/HIGHZ (any case) is high impedance; otherwise a float that must be positive; the same code also at `3021b/test_3021b_pulse_burst_gui.py:245-255` |
| LoadChoice.ReadLoadOhms | 3021b/test_3021b_pulse_single_gui.py:213-216 | a typed positive whole number is that many ohms |
| LoadChoice.ReadLoadInfLowerCase | 3021b/test_3021b_pulse_single_gui.py:205-211 | "inf" and "highz" typed in lower case still select high impedance |
| LoadChoice.ReadLoadFallback | 3021b/3021b_single_trigger.py:254-261 | an alias is high impedance; anything that is no float falls back to 50 ohms |
| LoadChoice.FallbackAgreesWhenAccepted | 3021b/3021b_single_trigger.py:254-261 | wherever the panels' reading accepts a load, the fallback reading gives the same one |
| LoadChoice.ReadLoad33522 | 33522b/33522b_pulse_single_gui.py:420-432 | HZ is one more high-impedance alias; a number must be positive; anything else is an error |
| LoadChoice.Load33522Extends | 33522b/33522b_pulse_single_gui.py:420-432 | every load the 3021B panels accept is read the same by the 33522B panel |
| LoadChoice.HzOnly33522 | 33522b/33522b_pulse_single_gui.py:423 | only the 33522B reads "hz" as high impedance; the 3021B panels refuse it or fall back to 50 ohms |
| LoadChoice.BlankLoad | 3021b/test_3021b_pulse_single_gui.py:209 | a blank load is left alone by the 3021B panels, refused by the 33522B and 50 ohms in the fallback |
| LoadChoice.WriteFallbackLoad | 3021b/3021b_single_trigger.py:258-261 | the impedance command (INF, the number or 50) is written; a failed numeric write is retried with 50, since the bare `except` catches it; `ok` is false iff a write error escapes (the INF write, the fallback write, or the retry fails) |
| Afg3021BPulse.HoldWordRead | 3021b/3021b_python_test_panel.py:423-427 | both hold readings understand the canonical WIDTH and DUTY words |
| Afg3021BPulse.NormalizedHoldIsWidth | 3021b/3021b_python_test_panel.py:424-426 | the "WIDTh" written back reads as a width hold in every GUI |
| Afg3021BPulse.HoldReadingsDisagree | 3021b/test_3021b_pulse_single_gui.py:182-190 | on any other hold text the normalising panels hold the width and the single/burst GUIs the duty |
| Afg3021BPulse.DutyFromWidth | 3021b/3021b_python_test_panel.py:427-433 | a width inside the period gives a duty in (0, 100) from which the same width is recovered |
| Afg3021BPulse.WidthFromDuty | 3021b/3021b_python_test_panel.py:434-443 | a duty in (0, 100) gives a width inside the period from which the same duty is recovered |
| Afg3021BPulse.ShapeAccepted | 3021b/3021b_python_test_panel.py:422-443 | an accepted pulse has period 1/freq, is consistent and keeps the held value |
| Afg3021BPulse.ShapeAcceptance | 3021b/3021b_python_test_panel.py:427-443 | a width hold is accepted iff 0 < width < period, a duty hold iff 0 < duty < 100, each with its own error |
| Afg3021BPulse.RecheckRedundant | 3021b/3021b_python_test_panel.py:440-442 | the width recheck after a duty hold never fires, so the burst GUI that lacks it behaves the same |
| Afg3021BPulse.WidthThenDuty | 3021b/3021b_python_test_panel.py:427-443 | entering the derived duty under a duty hold reproduces the same pulse |
| Afg3021BPulse.DutyThenWidth | 3021b/3021b_python_test_panel.py:427-443 | entering the derived width under a width hold reproduces the same pulse |
| Afg3021BPulse.ReadEagerAccepted | 3021b/3021b_python_test_panel.py:410-443 | the test panel's reading (all five numbers first) programs a consistent pulse at the entered frequency with the held value and levels as typed |
| Afg3021BPulse.EagerLazyAgree | 3021b/test_3021b_pulse_single_gui.py:174-205 | with every entry numeric, reading all numbers first or only the held one gives the same result |
| Afg3021BPulse.UnheldEntryIgnored | 3021b/test_3021b_pulse_single_gui.py:182-190 | the single/burst GUIs never read the entry the hold does not use; the test panel refuses it when not a number |
| Afg3021BPulse.SettleStable | 3021b/3021b_python_test_panel.py:432-443 | applying again after the write-back programs the same settings |
| Afg3021BPulse.SettleSwitchHold | 3021b/3021b_python_test_panel.py:432-443 | after the write-back, switching the hold programs the same pulse |
| Afg3021BPulse.PulsePlanShape | 3021b/3021b_python_test_panel.py:450-481 | the output is always switched off first; a bad load stops right there; otherwise the hold and the held quantity are written |
| Afg3021BPulse.ReadBurstAccepted | 3021b/test_3021b_pulse_burst_gui.py:227-243 | an accepted burst has cycles ≥ 1, a delay ≥ 0, a known mode and source, and a positive timer period for TIMer |
| Afg3021BPulse.BurstCommandsConditional | 3021b/test_3021b_pulse_burst_gui.py:275-283 | the trigger delay is written iff the mode is TRIGgered, the timer period iff the source is TIMer |
| Afg3021BPulse.NormalizedHoldSameReading | depreciated_2450_3021b_pulse_measVoltage.py:472-475 | rewriting the hold entry changes nothing about what is programmed |
| Afg3021BPulse.PulseGui.Send | 3021b/3021b_python_test_panel.py:450-481 | the plan is written up to the first failing write, and the outcome says how it ended |
| Afg3021BPulse.PulseGui.ApplyNormalizing | 3021b/3021b_python_test_panel.py:407-488 | not connected does nothing; the hold is normalised; a refused reading writes nothing; otherwise the derived value is written back and the plan sent; the same code also at `depreciated_2450_3021b_pulse_measVoltage.py:453-537` |
| Afg3021BPulse.PulseGui.ApplyLazy | 3021b/test_3021b_pulse_single_gui.py:174-239 | the single-pulse GUI: the held entry is read after the frequency, the write-back happens before later errors, and the plan is sent; the same code also at `3021b/test_3021b_pulse_burst_gui.py:196-289` |
| Afg3021BPulse.TimeoutFor | 3021b/3021b_python_test_panel.py:362-369 | the integer part of the entry, 5000 when it is no number, never below 100 |
| Afg3021BPulse.TimeoutOfNat | 3021b/3021b_python_test_panel.py:362-369 | a typed whole number of milliseconds is the timeout, raised to at least 100 |
| Afg3021BPulse.TimeoutResetReads | 3021b/3021b_python_test_panel.py:367-368 | the text written back on a bad entry reads as the default |
| Afg3021BPulse.TimeoutEntry.ParseTimeout | 3021b/3021b_python_test_panel.py:362-369 | the timeout is TimeoutFor(entry), and a non-number entry is replaced by "5000"; the same code also at `depreciated_2450_3021b_pulse_measVoltage.py:429-436` |
| Afg3021BPulse.RunRecipe | 3021b/3021b_python_test_panel.py:388-404 | an unknown or empty recipe writes nothing; otherwise its steps are written in order and it completes iff every write does, else aborts at the failing step |
| Afg3021BControl.BurstCycles | 3021b/doesnt_work_3021b_trigger_and_pulse.py:278-281 | the cycle count is max(1, int(float(text))), and 1 when the text is no number |
| Afg3021BControl.BurstCyclesOfNat | 3021b/doesnt_work_3021b_trigger_and_pulse.py:278-281 | a typed whole number n gives max(1, n) cycles |
| Afg3021BControl.BurstCyclesOfReal | 3021b/doesnt_work_3021b_trigger_and_pulse.py:278-281 | any number typed as the count gives its integer part when it is at least 1, and 1 cycle otherwise |
| Afg3021BControl.PostLatchLoad | 3021b/doesnt_work_3021b_trigger_and_pulse.py:289-298 | an alias selects high impedance; a load is written only when positive, otherwise the setting is kept |
| Afg3021BControl.AutoOffWait | 3021b/doesnt_work_3021b_trigger_and_pulse.py:388-393 | the auto-off wait is cycles/freq + 0.1 s, defined for a positive frequency |
| Afg3021BControl.AutoOffWaitCovers | 3021b/doesnt_work_3021b_trigger_and_pulse.py:388-393 | the wait less its 0.1 s margin covers exactly the burst's cycles at the frequency |
| Afg3021BControl.LatchController.constructor | 3021b/doesnt_work_3021b_trigger_and_pulse.py:37-44 | a new controller is disconnected with the output off and nothing latched |
| Afg3021BControl.LatchController.LatchZero | 3021b/doesnt_work_3021b_trigger_and_pulse.py:237-266 | with valid entries the 0 V latch commands are written up to the first failure; on success the zero is latched and the output flagged off |
| Afg3021BControl.LatchController.ConfigurePostLatch | 3021b/doesnt_work_3021b_trigger_and_pulse.py:268-309 | bad entries write nothing; otherwise the finite-burst commands are written, and only a complete write releases the latch and yields the cycle count |
| Afg3021BControl.LatchController.ArmSystem | 3021b/doesnt_work_3021b_trigger_and_pulse.py:311-361 | the latch is always cleared; the output is switched off, then the arm commands written; the output is flagged on iff all succeeded |
| Afg3021BControl.LatchController.Fire | 3021b/doesnt_work_3021b_trigger_and_pulse.py:370-410 | the count and the frequency are read (a latched channel is reprogrammed first); bad entries fire nothing and write only the reprogramming; otherwise the writes are exactly output-on if off, *TRG, and output-off for an auto-off burst, up to the first fault, and the burst fires iff all of them go out |
| Afg3021BControl.LatchController.FireCycles | 3021b/doesnt_work_3021b_trigger_and_pulse.py:372-376 | the count, the writes and the fault queue are exactly CyclesOf: float() of the entry when unlatched; when latched the post-latch commands, whose complete write gives BurstCycles of the entry and releases the latch |
| Afg3021BControl.LatchController.FireUnlatched | 3021b/doesnt_work_3021b_trigger_and_pulse.py:377-408 | the writes are exactly FireWrites up to the first fault; it fires iff all go out and the auto-off wait can be slept; the wait is AutoOffWait for an auto-off burst; the output flag follows what was written |
| Afg3021BControl.LatchController.TriggerBurst | 3021b/doesnt_work_3021b_trigger_and_pulse.py:383-403 | the writes are TriggerWrites up to the first fault; it fires iff all go out and the auto-off wait can be slept; the output flag is cleared only by a fired auto-off burst |
| Afg3021BControl.LatchController.Disconnect | 3021b/doesnt_work_3021b_trigger_and_pulse.py:220-235 | the output is switched off (a failed write is swallowed) and both flags are cleared |
| Afg3021BControl.StateController.ToggleOutput | 3021b/3021b_single_trigger.py:314-323 | the flag flips before the write, so it flips even when the write fails; the command sent names the new state |
| LanAddress.LastSep | test_idn_gui_LAN.py:36 | the last "::" of the text, as `rsplit("::", 1)` finds it |
| LanAddress.Normalize | test_idn_gui_LAN.py:34-36 | a TCPIP…INSTR address loses "::inst0" and its last field, and gets "::5025::SOCKET"; any other address is unchanged |
| LanAddress.IdnTarget | test_idn_gui_LAN.py:27-36 | nothing selected opens nothing; otherwise the normalised address |
| LanAddress.NormalizeIdempotent | test_idn_gui_LAN.py:34-36 | normalising twice is normalising once |
| LanAddress.NonLanUnchanged | test_idn_gui_LAN.py:34 | a non-TCPIP address is never touched |
| LanAddress.NormalizeLan | test_idn_gui_LAN.py:34-36 | TCPIPb::host::inst0::INSTR becomes TCPIPb::host::5025::SOCKET |
| PulseTrain.Parsed | 2602b/2602b_timer_pulse_train_gui.py:51-61 | the entries parse exactly when all eight are numbers; the widths are the typed floats and the counts are int(float()) of the text |
| PulseTrain.ValidateInputs | 2602b/2602b_timer_pulse_train_gui.py:50-83 | texts that are not numbers give the not-numeric error; otherwise the result is accepted exactly when the checks pass, in the source's order (count, width, period, period ≥ width, timer indexes) |
| PulseTrain.SourceRange | 2602b/2602b_timer_pulse_train_gui.py:86-90 | the range is the larger of the two magnitudes, and 0.2 when both levels are zero; it is always positive and covers both |
| PulseTrain.SourceRangeTight | 2602b/2602b_timer_pulse_train_gui.py:86-90 | no range that covers two non-zero levels is smaller than the one computed |
| PulseTrain.PeriodTimerCount | 2602b/2602b_timer_pulse_train_gui.py:106 | the period timer counts max(count − 1, 0): one fewer than the pulses |
| PulseTrain.Micro | 2602b/2602b_timer_pulse_train_gui.py:104-105 | microseconds become seconds by ×1e-6, keeping the sign |
| PulseTrain.SetupCommands | 2602b/2602b_timer_pulse_train_gui.py:113-163 | the 24 configuration writes end with the output-on write, which appears nowhere before; no output-off write is among them |
| PulseTrain.OffOnlyAfterOn | 2602b/2602b_timer_pulse_train_gui.py:189-194 | an output-off write appears only after every setup write, the output-on write included, went out |
| PulseTrain.SetupFailureWritesNoOff | 2602b/2602b_timer_pulse_train_gui.py:189-194 | a write failure before the output-on write leaves no output-off write, and only a proper prefix of the setup is written |
| PulseTrain.SetupFailureLeavesOutputOff | 2602b/2602b_timer_pulse_train_gui.py:111-194 | a failing setup never switches the output either on or off |
| PulseTrain.CleanRun | 2602b/2602b_timer_pulse_train_gui.py:111-194 | without write faults the instrument receives the setup, the run, and then output-off |
| PulseTrain.RunTrain | 2602b/2602b_timer_pulse_train_gui.py:111-194 | the writes are those of TrainWrites on the instrument's faults; a completed run wrote setup and run |
| PulseTrain.RunPulseTrain | 2602b/2602b_timer_pulse_train_gui.py:93-194 | a refused entry writes nothing, no connection writes nothing, otherwise the instrument receives TrainWrites of the validated setup; a completed run carries the validated parameters |
| FramedFetch.ReadFrame | 2602b/2602b_gui_ammeter.py:224-241 | the read loop's result is Collect of the flag answers and the pending replies; it polls the flag once per round, reading nothing else and writing nothing |
| FramedFetch.ParseFields | 2602b/2602b_gui_ammeter.py:243-256 | the token loop is cancelled exactly when the flag is raised at one of the field polls; otherwise it returns the numeric fields in order |
| FramedFetch.FetchFramed | 2602b/2602b_gui_ammeter.py:223-260 | the fetch equals FetchSpec; the data request is written unless its write fails |
| FramedFetch.FramedBetween | 2602b/2602b_trigger_ammeter.py:262-277 | the collected text is exactly the lines strictly between the first DataStart line and the next DataEnd line, the markers excluded |
| FramedFetch.FramedToEnd | 2602b/2602b_trigger_ammeter.py:262-277 | a frame that no DataEnd closes runs to the end of what the instrument sent |
| FramedFetch.NoStartNoData | 2602b/2602b_trigger_ammeter.py:262-280 | without a DataStart line nothing is collected, and the fetch reports no data |
| FramedFetch.ErrorStops | 2602b/2602b_trigger_ammeter.py:266-276 | an Error line ends the fetch with that line, even before DataStart |
| FramedFetch.FetchFramedValues | 2602b/2602b_trigger_ammeter.py:258-296 | a fault-free fetch of a frame whose fields hold numbers returns exactly those numbers |
| FramedFetch.CancelFirst | 2602b/2602b_trigger_ammeter.py:263-264 | a flag raised before the first read cancels the fetch whatever the instrument sends |
| FramedFetch.CancelDuringParse | 2602b/2602b_trigger_ammeter.py:283-285 | a flag raised during the token loop cancels a fetch that had collected data |
| FramedFetch.CountOf | 2602b/2602b_gui_ammeter.py:275-278 | the buffer count is int(float(reply)), and 0 when the reply is not a number |
| FramedFetch.NonNumericNotReady | 2602b/2602b_gui_ammeter.py:275-284 | a reply that is not a number never ends the wait |
| FramedFetch.DeadlineSeconds | 2602b/2602b_gui_ammeter.py:265 | the wait lasts max(5, expected·0.01 + 2) seconds |
| FramedFetch.DeadlineShape | 2602b/2602b_gui_ammeter.py:265 | five seconds up to 300 expected points, then 10 ms per point plus two seconds |
| FramedFetch.WaitForBufferReady | 2602b/2602b_gui_ammeter.py:262-289 | the loop's result is WaitSpec; a ready wait has consumed one flag answer, one write and one reply per query, and writes nothing but count queries |
| FramedFetch.WaitTimesOut | 2602b/2602b_gui_ammeter.py:270-289 | when every reply within the deadline falls short, the wait fails reporting the last count |
| FramedFetch.WaitReadyAt | 2602b/2602b_gui_ammeter.py:280-284 | the first reply that reaches the target ends the wait, after one query per reply |
| FramedFetch.AmmeterResult | 2602b/2602b_gui_ammeter.py:258-260 | the fetch yields values exactly when numbers were parsed, and those values |
| FramedFetch.RetrieveCurrents | 2602b/2602b_gui_ammeter.py:220-260 | the result is RetrieveSpec: the wait, then the fetch on the replies left |
| FramedFetch.RetrieveClean | 2602b/2602b_gui_ammeter.py:220-260 | fault-free, with counts climbing to the target and then a numeric frame, the result is the frame's numbers |
| FramedFetch.AmmeterPanel.constructor | 2602b/2602b_gui_ammeter.py:73-123 | a new panel shows "Not Connected", is disconnected with no worker, both buttons disabled and nothing plotted |
| FramedFetch.AmmeterPanel.RequestFetch | 2602b/2602b_gui_ammeter.py:198-207 | a fetch starts exactly when connected with no live worker, then disables both buttons and shows "Fetching data..."; otherwise nothing changes |
| FramedFetch.AmmeterPanel.RestoreControls | 2602b/2602b_gui_ammeter.py:306-311 | unless closing, both buttons are enabled exactly when connected; nothing else changes |
| FramedFetch.AmmeterPanel.FetchDone | 2602b/2602b_gui_ammeter.py:291-304 | the worker is gone; a failure sets the error status; a success plots the values and counts them in the status unless closing; the controls are restored |
| FramedFetch.AmmeterPanel.FetchData | 2602b/2602b_gui_ammeter.py:198-218 | the guard, then RetrieveSpec's result reported as FetchDone does |
| FramedFetch.AmmeterPanel.StartMeasurement | 2602b/2602b_gui_ammeter.py:183-196 | ignored without a connection; a non-integer count is refused with nothing written; otherwise StartAmmeterBurst(count) is written, and only a write that went out sets the status and the expected count |
| FramedFetch.AmmeterPanel.StartTriggered | 2602b/2602b_trigger_ammeter.py:207-230 | as StartMeasurement, with both entries required to be integers and StartTriggeredAmmeter(count, line) written |
| FramedFetch.VoltmeterFetch | 2602b/2602b_trigger_voltmeter.py:215-280 | without a connection nothing happens; otherwise the status is VoltmeterStatus of the uncancellable fetch, and values are plotted exactly when some were parsed |
| FramedFetch.VoltmeterOutcomes | 2602b_33522b_measVoltage.py:209-256 | a voltmeter fetch has no stop flag, so it is never cancelled |
| FramedFetch.VoltmeterStart | 2602b_33522b_measVoltage.py:187-207 | ignored without a connection; non-integer entries are refused with the panel's message and nothing written; otherwise StartVoltmeterBurst(count, line) is written and the status set only when it went out |
| KeysightFields.NumberField | 33522b/33522b_trigger_and_pulse.py:301-305 | a field is accepted exactly when its stripped text is a number, with that value; otherwise the panel's "must be numeric" message; the same code also at `33522b/33522b_ext_trig_ch2.py:338-343` |
| KeysightFields.PositiveField | 33522b/33522b_trigger_and_pulse.py:307-312 | accepted exactly when the text is a number above zero; a non-number and a non-positive number get their own messages |
| KeysightFields.TruncIntField | 33522b/33522b_trigger_and_pulse.py:314-322 | accepted exactly when int(float(text)) is at least one, with that value; a non-number is "must be an integer" |
| KeysightFields.DirectIntField | 33522b/33522b_ext_trig_ch2.py:352-360 | accepted exactly when int(text) parses and is at least one |
| KeysightFields.IntFieldsRoundTrip | 33522b/33522b_trigger_and_pulse.py:314-322 | a positive whole number typed in is accepted by both integer parsers with its own value |
| KeysightFields.IntFieldsRefuseNonPositive | 33522b/33522b_ext_trig_ch2.py:352-360 | zero or a negative whole number is refused by both with "must be > 0" |
| KeysightFields.DecimalIntegerText | 33522b/33522b_ext_trig_ch2.py:355 | "1.0" is one for int(float()) but is refused by int() |
| KeysightFields.ParseSingleTime | 33522b/33522b_pulse_single_gui.py:314-335 | a blank entry is refused with the single-channel GUI's own message |
| KeysightFields.ParseSingleTimeRoundTrip | 33522b/33522b_pulse_single_gui.py:314-335 | a whole number followed by any listed unit reads as that many units, and a bare whole number as seconds |
| KeysightFields.OneEdge | 33522b/33522b_trigger_and_pulse.py:558-570 | a blank edge writes nothing; a refused edge writes nothing; at most one non-negative edge command is written under the given header |
| KeysightFields.EdgePlan | 33522b/33522b_trigger_and_pulse.py:558-579 | only non-negative edge commands are written; two different entries outside "Separate" mode are refused; two blanks write nothing |
| KeysightFields.SharedEdge | 33522b/33522b_trigger_and_pulse.py:571-579 | outside "Separate" mode one given time (the other blank or equal, in either order) is written to both edges, and a negative one is refused |
| KeysightFields.SeparateEdges | 33522b/33522b_trigger_and_pulse.py:558-570 | in "Separate" mode each edge gets its own entry's time |
| KeysightFields.Ch1Load | 33522b/33522b_trigger_and_pulse.py:324-337 | the load is accepted exactly when the 33522B load reading accepts it, with the same value; a number not above zero and a non-number get their own messages |
| KeysightFields.ProgrammingOutcome | 33522b/33522b_trigger_and_pulse.py:548-592 | a refused load stops before any shape write; a refused edge stops after the shape; otherwise the load, the shape, the edges and the tail are all written |
| KeysightFields.AmpUnit | 33522b/33522b_trigger_and_pulse.py:529-531 | the unit is VPP or VRMS, and VRMS exactly when the entry says so |
| KeysightFields.BurstCount | 33522b/33522b_trigger_and_pulse.py:541-546 | zero outside burst mode; in burst mode int(float(text)) when that is at least one, else 1 |
| KeysightFields.ReadAmplitude | 33522b/33522b_trigger_and_pulse.py:521-540 | an accepted entry has a positive frequency, the period its reciprocal, a width strictly inside the period, a positive amplitude, and offset and phase as typed |
| KeysightFields.OffThenProgramming | 33522b/33522b_trigger_and_pulse.py:548-592 | channel 1 is switched off first; a refused load stops there; the levels follow the shape; a finished plan ends with the tail |
| KeysightFields.AmplitudePlanShape | 33522b/33522b_trigger_and_pulse.py:516-592 | a refused entry writes nothing; otherwise channel 1 is switched off first; a refused load stops there; a finished plan ends in the burst or continuous tail; the same code also at `2602b_33522b_measVoltage.py:764-840` |
| KeysightFields.ReadLevels | 2450_33522b_measVoltage.py:494-514 | an accepted entry has a positive frequency, a width strictly inside the period, and a high level above the low level, as typed |
| KeysightFields.FixedLevelsIgnoreEntries | 2450_33522b_measVoltage.py:528-530 | the typed levels only gate the plan: 2 V and 0 V are written whatever passed the check |
| KeysightFields.ExtLevelPlanLevels | 33522b/33522b_ext_trig_ch2.py:478-529 | a finished external-trigger plan programs exactly the typed levels, high above low |
| KeysightFields.SingleRead | 33522b/33522b_pulse_single_gui.py:446-461 | a non-number or non-positive frequency is refused first; an accepted entry has the period, a width strictly inside it, and the levels and phase as typed |
| KeysightFields.SinglePlanShape | 33522b/33522b_pulse_single_gui.py:439-500 | the output is switched off before anything is read; a refused entry or load writes nothing more; a finished plan writes the typed levels |
| KeysightFields.ReadCh2 | 33522b/33522b_trigger_and_pulse.py:462-479 | non-numeric entries are refused first, then non-positive ones; the settings are accepted exactly when all four are positive numbers and vpp is at most 10 |
| KeysightFields.Ch2Span | 33522b/33522b_trigger_and_pulse.py:484-487 | the channel-2 offset is half the high level, so the square wave spans 0 V to vpp |
| KeysightFields.Duration | 33522b/33522b_trigger_and_pulse.py:650 | the burst time is max(1e-4, cycles/freq) |
| KeysightFields.Dwell | 33522b/33522b_trigger_and_pulse.py:651 | the dwell is max(0.01, duration·settle) |
| KeysightFields.PhaseDelay | 33522b/33522b_trigger_and_pulse.py:653-661 | a blank delay is the dwell; a non-number is refused; otherwise the number clamped at zero |
| KeysightFields.ReadFire | 33522b/33522b_trigger_and_pulse.py:639-661 | a non-number is refused; a zero frequency raises the division's error; otherwise the timing is Duration, Dwell and PhaseDelay of the entries |
| KeysightFields.LongBurstDwell | 33522b/33522b_trigger_and_pulse.py:650-651 | a long burst is not clamped: the dwell is the burst time scaled by the settle factor |
| KeysightPanel.Ch1PlanEmptyRaises | 33522b/33522b_trigger_and_pulse.py:516-592 | a channel-1 plan that writes nothing was refused before its first write |
| KeysightPanel.FixedLevelPlanShape | 2450_33522b_measVoltage.py:523-561 | a finished 2450/33522B plan always ends in the burst tail |
| KeysightPanel.Ch1RunFailure | 33522b/33522b_trigger_and_pulse.py:612-622 | a failed channel-1 configuration leaves every flag as it was, and one refused before any write leaves the bus too |
| KeysightPanel.Ch1RunSuccess | 33522b/33522b_trigger_and_pulse.py:593-611 | a completed configuration flags channel 1 configured with its mode, leaves channel 2's flags alone, keeps a continuous channel 1 off, and arms a burst channel 1 when those writes go out |
| KeysightPanel.Ch1Outcome | 33522b/33522b_trigger_and_pulse.py:516-624 | each panel's configure_ch1 fails without changing a flag, records the plan's mode on success, and never switches on a continuous channel 1; the same code also at `2450_33522b_measVoltage.py:494-588` |
| KeysightPanel.ConfigureRunOff | 33522b/33522b_trigger_and_pulse.py:482-493 | once channel 2 is programmed, the panel is configured and flags its output off |
| KeysightPanel.ConfigureFlagsOutputOff | 33522b/33522b_trigger_and_pulse.py:480-493 | a successful configure writes the channel-2 setup and :OUTP2 ON, yet leaves output_on False |
| KeysightPanel.ConfigureRefused | 33522b/33522b_trigger_and_pulse.py:466-479 | refused channel-2 entries show their message and write and change nothing |
| KeysightPanel.DelayClamped | 33522b/33522b_trigger_and_pulse.py:626-637 | the trigger delay written is max(0, d), and none is written for a continuous channel 1 |
| KeysightPanel.StartCh1Guards | 33522b/33522b_trigger_and_pulse.py:358-369 | arming a continuous channel 1 does nothing; the 2450 GUI always forces channel 1 on; a refusal changes no flag; the same code also at `2450_33522b_measVoltage.py:339-347` |
| KeysightPanel.FireRefused | 33522b/33522b_trigger_and_pulse.py:639-661 | an unconfigured channel 2 or refused entries write nothing and change nothing |
| KeysightPanel.FireLaunches | 33522b/33522b_trigger_and_pulse.py:662-690 | a fire that launches leaves channel 2 on and configured, its bus ends with :INIT2:IMM and *TRG, and the switch-off is scheduled after the dwell |
| KeysightPanel.AutoOffOnlyWhenOn | 33522b/33522b_trigger_and_pulse.py:692-702 | the automatic switch-off writes exactly when channel 2 is flagged on, and then clears the flag |
| KeysightPanel.FireThenAutoOff | 33522b/33522b_trigger_and_pulse.py:639-702 | after a fire and a clean automatic switch-off channel 2 is off and the last write is :OUTP2 OFF |
| KeysightPanel.ToggleTwice | 33522b/33522b_trigger_and_pulse.py:717-728 | two toggles whose writes go out restore the flag, after writing the opposite states in turn |
| KeysightPanel.ToggleBlocked | 33522b/33522b_trigger_and_pulse.py:717-741 | a toggle whose write raises changes neither flag nor what was sent |
| KeysightPanel.StopSwitchesOff | 33522b/33522b_trigger_and_pulse.py:704-715 | stop writes its three commands and flags channel 2 off when they go out |
| KeysightPanel.PulsePanel.constructor | 33522b/33522b_trigger_and_pulse.py:35-46 | a panel starts connected exactly when it has an instrument, with channel 1 taken for a burst and every other flag off |
| KeysightPanel.PulsePanel.Emit | 33522b/33522b_trigger_and_pulse.py:343-347 | the writes succeed exactly when none fail, and the instrument records what went out |
| KeysightPanel.PulsePanel.EnsureCh1OutputOn | 33522b/33522b_trigger_and_pulse.py:343-356 | the new state is EnsureCh1Spec of the old one |
| KeysightPanel.PulsePanel.ConfigureCh1 | 33522b/33522b_trigger_and_pulse.py:516-624 | without an instrument it fails; otherwise the new state and result are Ch1Spec of the old state |
| KeysightPanel.PulsePanel.Configure | 33522b/33522b_trigger_and_pulse.py:462-514 | without an instrument it shows "Connect first."; otherwise ConfigureSpec |
| KeysightPanel.PulsePanel.SetCh1TriggerDelay | 33522b/33522b_trigger_and_pulse.py:626-637 | the new state is DelaySpec of the old one |
| KeysightPanel.PulsePanel.StartCh1ForTrigger | 33522b/33522b_trigger_and_pulse.py:358-369 | without an instrument it raises "Connect the Keysight 33522B first."; otherwise StartCh1Spec |
| KeysightPanel.PulsePanel.FirePulse | 33522b/33522b_trigger_and_pulse.py:639-690 | without an instrument it refuses; otherwise FireSpec |
| KeysightPanel.PulsePanel.AutoOffAfterFire | 33522b/33522b_trigger_and_pulse.py:692-702 | the new state is AutoOffSpec of the old one |
| KeysightPanel.PulsePanel.Stop | 33522b/33522b_trigger_and_pulse.py:704-715 | the new state is StopSpec of the old one |
| KeysightPanel.PulsePanel.ToggleOutput | 33522b/33522b_trigger_and_pulse.py:717-728 | the new state is ToggleSpec of the old one |
| KeysightPanel.PulsePanel.ToggleCh1Output | 33522b/33522b_trigger_and_pulse.py:730-741 | the new state is Ch1ToggleSpec of the old one |
| KeysightExtTrig.ReadExtCh2 | 33522b/33522b_ext_trig_ch2.py:427-436 | accepted entries are a positive frequency, amplitude and settle factor and a whole cycle count of at least one, as typed; configure also caps the amplitude at 10 Vpp; a non-number frequency is refused first |
| KeysightExtTrig.ExtReadingsAgree | 33522b/33522b_ext_trig_ch2.py:546-550 | fire_pulse reads the same entries as configure, except that only configure refuses more than 10 Vpp |
| KeysightExtTrig.SameSettingsResendNothing | 33522b/33522b_ext_trig_ch2.py:552-561 | firing with the settings last programmed re-sends nothing (the `or None`/`or inf` tests aside, which treat zero as unset) |
| KeysightExtTrig.FirstFireSendsAll | 33522b/33522b_ext_trig_ch2.py:552-561 | the first fire after connecting re-sends frequency, cycles and levels, with NCYC written twice |
| KeysightExtTrig.TinyFrequencyChangeIgnored | 33522b/33522b_ext_trig_ch2.py:552 | a frequency that moved by no more than 1e-9 Hz is not re-sent |
| KeysightExtTrig.ExtDwell | 33522b/33522b_ext_trig_ch2.py:568-569 | the pause after the trigger is max(0.01, cycles/freq·settle) |
| KeysightExtTrig.TriggerSucceeds | 33522b/33522b_ext_trig_ch2.py:571-585 | a trigger that completes writes the whole output-on, INIT2, *TRG (and output-off) sequence and leaves the panel as it found it |
| KeysightExtTrig.ButtonStates | 33522b/33522b_ext_trig_ch2.py:232-243 | connect is enabled exactly when disconnected; fire, stop and toggle follow configured; the channel-1 toggle needs a connection and a channel-1 configuration |
| KeysightExtTrig.ButtonsMatchGuards | 33522b/33522b_ext_trig_ch2.py:232-243 | an enabled fire or channel-1 toggle button always passes its action's own guard, and connect and disconnect are never both enabled |
| KeysightExtTrig.ConfigureRefused | 33522b/33522b_ext_trig_ch2.py:427-436 | refused entries write nothing and change nothing, with a message |
| KeysightExtTrig.ConfigureProgramsSpan | 33522b/33522b_ext_trig_ch2.py:438-471 | a completed configuration writes the 0 V to vpp square-wave burst and :OUTP2 OFF, is configured with the output off, and remembers the settings |
| KeysightExtTrig.FireRestoresOutput | 33522b/33522b_ext_trig_ch2.py:542-587 | a completed fire writes the changed settings and the trigger sequence, leaves the output as it found it, and remembers the settings fired |
| KeysightExtTrig.FireFailureFlag | 33522b/33522b_ext_trig_ch2.py:571-587 | a fire that fails during the trigger leaves the output flagged on exactly when it was on or its output-on write went out |
| KeysightExtTrig.FireKeepsLastOnFailure | 33522b/33522b_ext_trig_ch2.py:552-566 | a write that fails while the changed settings go out keeps the old remembered values |
| KeysightExtTrig.FireKeepsOutputOn | 33522b/33522b_ext_trig_ch2.py:571-583 | with the output already on, a fire never switches it off |
| KeysightExtTrig.ToggleTwice | 33522b/33522b_ext_trig_ch2.py:610-623 | two toggles whose writes go out restore the panel |
| KeysightExtTrig.Retry | 33522b/33522b_ext_trig_ch2.py:211-227 | at most retries attempts; no answer means every attempt was made; an answer comes after at least one |
| KeysightExtTrig.RetryBounded | 33522b/33522b_ext_trig_ch2.py:211-227 | each attempt sends the query at most once |
| KeysightExtTrig.RetrySendsOnlyQuery | 33522b/33522b_ext_trig_ch2.py:211-227 | retrying sends nothing but copies of the query |
| KeysightExtTrig.QueryOnceWrites | 33522b/33522b_ext_trig_ch2.py:214-216 | one attempt sends the query or nothing |
| KeysightExtTrig.FirstAnswerWins | 33522b/33522b_ext_trig_ch2.py:214-217 | an answer on the first attempt is returned stripped, after one attempt |
| KeysightExtTrig.TimeoutRetried | 33522b/33522b_ext_trig_ch2.py:218-227 | a timed-out first attempt is retried, and the second answer returned after two queries |
| KeysightExtTrig.SafeQuerySpec | 33522b/33522b_ext_trig_ch2.py:209-230 | no connection raises; zero retries raise "Query failed for unknown reasons."; all attempts timing out re-raise the VISA error |
| KeysightExtTrig.ExtTrigPanel.constructor | 33522b/33522b_ext_trig_ch2.py:25-60 | a new panel has no instrument, every flag cleared and nothing remembered |
| KeysightExtTrig.ExtTrigPanel.Emit | 33522b/33522b_ext_trig_ch2.py:204-207 | the writes succeed exactly when none fail, and the instrument records what went out |
| KeysightExtTrig.ExtTrigPanel.Connect | 33522b/33522b_ext_trig_ch2.py:363-392 | already connected does nothing; a blank address or a failed open is refused and leaves the panel disconnected; it connects exactly when the *IDN? query is answered, unconfigured |
| KeysightExtTrig.ExtTrigPanel.SafeQuery | 33522b/33522b_ext_trig_ch2.py:209-230 | the result and the instrument's new state are SafeQuerySpec of the old ones |
| KeysightExtTrig.ExtTrigPanel.ConfigureCh2 | 33522b/33522b_ext_trig_ch2.py:427-476 | without an instrument it refuses; otherwise ConfigureSpec |
| KeysightExtTrig.ExtTrigPanel.ConfigureCh1 | 33522b/33522b_ext_trig_ch2.py:478-540 | without an instrument it refuses; otherwise Ch1Spec |
| KeysightExtTrig.ExtTrigPanel.FirePulse | 33522b/33522b_ext_trig_ch2.py:542-590 | without an instrument it refuses; otherwise FireSpec |
| KeysightExtTrig.ExtTrigPanel.Stop | 33522b/33522b_ext_trig_ch2.py:592-608 | the new state is StopSpec of the old one |
| KeysightExtTrig.ExtTrigPanel.ToggleOutput | 33522b/33522b_ext_trig_ch2.py:610-623 | the new state is ToggleSpec of the old one |
| KeysightExtTrig.ExtTrigPanel.ToggleCh1Output | 33522b/33522b_ext_trig_ch2.py:625-638 | the new state is Ch1ToggleSpec of the old one |
| KeysightExtTrig.ExtTrigPanel.Disconnect | 33522b/33522b_ext_trig_ch2.py:394-425 | the instrument is dropped and every flag and remembered value cleared; only a failing close raises; the writes are exactly those of stop followed by ":OUTP1 OFF" |
| Sdg1020.Verdict | sdg1020/1020_burst_pulse_sync_gui.py:131-141 | a plan ends without error exactly when every write went out and the plan itself raised nothing; a failed write is reported as the VISA failure, otherwise the plan's own error |
| Sdg1020.Perform | sdg1020/1020_burst_pulse_sync_gui.py:131-141 | the plan's commands are written one by one until the first failure, and the result is Verdict |
| Sdg1020.DutyBetween | sdg1020/1020_burst_pulse_sync_gui.py:221 | a width strictly inside the period gives a duty strictly between 0 and 100 percent |
| Sdg1020.ReadBurstPulse | sdg1020/1020_burst_pulse_sync_gui.py:213-220 | an unparsable or non-positive period is refused first; accepted entries are the parsed period, amplitude, width strictly inside the period, offset and delay |
| Sdg1020.BurstPulseAccepted | sdg1020/1020_burst_pulse_sync_gui.py:213-220 | entries that all parse, with the width inside the period, are accepted |
| Sdg1020.ReadBurst | sdg1020/1020_burst_pulse_sync_gui.py:279-284 | blank source, cycles, period and delay mean INT, one cycle, the pulse period and no delay; given ones are read as typed, cycles by int(float()) |
| Sdg1020.BurstPlan | sdg1020/1020_burst_pulse_sync_gui.py:275-297 | a disabled burst writes only STATE,OFF; an enabled one writes the six burst commands of its entries, or raises before writing any |
| Sdg1020.BurstApplyOrder | sdg1020/1020_burst_pulse_sync_gui.py:213-238 | a refused pulse writes nothing; an accepted one writes the six pulse commands, with a duty strictly inside 0 to 100, then exactly the burst plan |
| Sdg1020.BurstDisabledEndsOff | sdg1020/1020_burst_pulse_sync_gui.py:227-233 | with the burst disabled the configuration is seven writes ending in STATE,OFF |
| Sdg1020.UpdateOnly | sdg1020/1020_burst_pulse_sync_gui.py:192-211 | an empty entry raises before writing; otherwise it writes one command with the parsed time exactly when the entry parses |
| Sdg1020.BurstGui.constructor | sdg1020/1020_burst_pulse_sync_gui.py:18-30 | the panel holds the given instrument |
| Sdg1020.BurstGui.ApplyPulse | sdg1020/1020_burst_pulse_sync_gui.py:213-238 | without an instrument it raises "Instrument not connected"; otherwise it performs BurstApplyPlan |
| Sdg1020.BurstGui.UpdateBurstPeriodOnly | sdg1020/1020_burst_pulse_sync_gui.py:192-200 | without an instrument it raises; otherwise it performs the period-only plan |
| Sdg1020.BurstGui.UpdateBurstDelayOnly | sdg1020/1020_burst_pulse_sync_gui.py:202-210 | without an instrument it raises; otherwise it performs the delay-only plan |
| Sdg1020.ContAddress | sdg1020/1020_cont_pulse_gui.py:130-132 | the address is refused exactly when it is blank; otherwise it is the stripped address |
| Sdg1020.ContApply | sdg1020/1020_cont_pulse_gui.py:195-218 | without a connection it refuses; an accepted command has a positive period and amplitude, a width strictly inside the period, and carries their duty |
| Sdg1020.ContApplyRoundTrip | sdg1020/1020_cont_pulse_gui.py:177-218 | whole-number entries with the period and width in one of the panel's units give the one combined command of those values |
| Sdg1020.ContAccepted | sdg1020/1020_cont_pulse_gui.py:195-218 | entries that parse, positive and with the width inside the period, are always accepted |
| Sdg1020.ChannelPlan | sdg1020/1020_ch1_ch2_trigger_pulse.py:161-194 | a refused entry writes nothing; an unreadable period raises "could not convert"; a configuration is nine writes from OUTP OFF to OUTP ON |
| Sdg1020.ChannelStaysOnItsChannel | sdg1020/1020_ch1_ch2_trigger_pulse.py:161-194 | configuring one channel addresses only that channel, *WAI aside |
| Sdg1020.ChannelRejectsSeconds | sdg1020/1020_ch1_ch2_trigger_pulse.py:141-143 | a time typed with a plain "s" suffix is refused and nothing is written |
| Sdg1020.DualGui.constructor | sdg1020/1020_ch1_ch2_trigger_pulse.py:24-35 | the panel holds the given instrument |
| Sdg1020.DualGui.ApplyChannel | sdg1020/1020_ch1_ch2_trigger_pulse.py:147-159 | without an instrument nothing happens; otherwise it performs ChannelPlan for that channel |
| Sdg1020.DualGui.FireSequence | sdg1020/1020_ch1_ch2_trigger_pulse.py:196-207 | without an instrument nothing happens; otherwise C1 MTRIG then C2 MTRIG |
| Sdg1020.DualGui.AllOff | sdg1020/1020_ch1_ch2_trigger_pulse.py:135-139 | without an instrument nothing happens; otherwise both outputs are switched off |
| Sdg1020.ManualPlan | sdg1020/doesnt_work_1020_manual_burst_pulse_sync_gui.py:210-244 | a refused entry writes nothing; the cycle count must be a plain integer; an accepted entry is ten writes ending with the burst count and delay |
| Sdg1020.ManualKeepsBurstPeriod | sdg1020/doesnt_work_1020_manual_burst_pulse_sync_gui.py:228-229 | the manual panel never writes a burst period, so the software burst's long period stays |
| Sdg1020.ManualGui.constructor | sdg1020/doesnt_work_1020_manual_burst_pulse_sync_gui.py:21-30 | the panel holds the given instrument |
| Sdg1020.ManualGui.ApplyPulse | sdg1020/doesnt_work_1020_manual_burst_pulse_sync_gui.py:210-244 | without an instrument it raises; otherwise it performs ManualPlan |
| Sdg1020.ManualGui.FireSoftwareBurst | sdg1020/doesnt_work_1020_manual_burst_pulse_sync_gui.py:176-208 | without an instrument it raises; otherwise internal trigger, 10 s burst period, sync and output on, then output and sync off |
| ScriptSessions.LineCommands | depreciated_2450_3021b_pulse_measVoltage.py:637-638 | each script line is written as its own command, in order |
| ScriptSessions.UploadWrites | depreciated_2450_3021b_pulse_measVoltage.py:628-641 | when the body's writes go out, the upload succeeds: the delete (skipped if its write fails) and then the body |
| ScriptSessions.UploadFailsOnBodyFault | depreciated_2450_3021b_pulse_measVoltage.py:636-640 | a failing write after the delete fails the upload |
| ScriptSessions.EnsureSpec | depreciated_2450_3021b_pulse_measVoltage.py:628-641 | a name already loaded does nothing; the name ends up loaded exactly when no error is raised; the loaded set only ever gains that name; the only error is the VISA failure |
| ScriptSessions.EnsureIdempotent | depreciated_2450_3021b_pulse_measVoltage.py:631-632 | once a script is ensured, ensuring it again changes nothing |
| ScriptSessions.EnsureLoadsFreshName | depreciated_2450_3021b_pulse_measVoltage.py:633-641 | a fresh name is uploaded as delete, lines, save and run, and recorded as loaded |
| ScriptSessions.EnsureRetriesAfterFailure | depreciated_2450_3021b_pulse_measVoltage.py:636-641 | a failed upload does not record the name, so the next call uploads again |
| ScriptSessions.Session.constructor | depreciated_2450_3021b_pulse_measVoltage.py:579-584 | a new session has no instrument, the default address and nothing loaded |
| ScriptSessions.Session.Connect | depreciated_2450_3021b_pulse_measVoltage.py:596-610 | a blank address is refused with nothing changed; otherwise the address is kept, the session opened with a 20 s timeout, and it connects exactly when *IDN? is answered, which forgets every loaded script |
| ScriptSessions.Session.Disconnect | depreciated_2450_3021b_pulse_measVoltage.py:612-626 | the instrument is dropped and every loaded script forgotten |
| ScriptSessions.Session.EnsureScript | depreciated_2450_3021b_pulse_measVoltage.py:628-641 | without an instrument it raises "Connect to the 2450 first."; otherwise the result and new state are EnsureSpec of the old ones |
| ScriptSessions.Session.Write | depreciated_2450_3021b_pulse_measVoltage.py:654-657 | without an instrument it raises; otherwise one write, failing exactly when the instrument refuses it |
| ScriptSessions.Session.Query | depreciated_2450_3021b_pulse_measVoltage.py:659-662 | without an instrument it raises; otherwise the reply, exactly when the query is answered |
| ScriptSessions.ResolveLine | depreciated_2450_3021b_pulse_measVoltage.py:789-796 | the line is accepted exactly when it is an integer from 1 to 6; a non-integer and an out-of-range number get their own messages |
| ScriptSessions.ResolveLineRoundTrip | depreciated_2450_3021b_pulse_measVoltage.py:789-796 | a typed number n is accepted exactly when 1 ≤ n ≤ 6, and a blank entry is not an integer |
| ScriptSessions.TimeoutExpr | depreciated_2450_3021b_pulse_measVoltage.py:829-830 | a blank timeout means nil; otherwise accepted exactly when it is a number, and then that number |
| ScriptSessions.NegativeTimeoutPassed | depreciated_2450_3021b_pulse_measVoltage.py:829-830 | a negative timeout is passed on here, where the listener's own panel refuses it |
| ScriptSessions.StartWaitArguments | depreciated_2450_3021b_pulse_measVoltage.py:828-836 | the arguments are accepted exactly when the timeout, line and mode all are, and carry their values; the timeout is checked first, then the line |
| ScriptSessions.WaitStart | depreciated_2450_3021b_pulse_measVoltage.py:820-845 | a wait starts exactly when connected, not already waiting, with accepted arguments and a meter that prepared; each refusal has its message |
| ScriptSessions.WaitLog | depreciated_2450_3021b_pulse_measVoltage.py:877-886 | "Trigger received." is logged exactly when the reply says TRIGGER |
| ScriptSessions.FiresOnlyOnTrigger | depreciated_2450_3021b_pulse_measVoltage.py:854-880 | the trigger callback runs exactly when connected, the query answered and the stripped, upper-cased reply is TRIGGER |
| ScriptSessions.ScriptWordsArrive | depreciated_2450_3021b_pulse_measVoltage.py:858-880 | a wait result word from the script arrives as that reply, and fires exactly when it is TRIGGER |
| ScriptSessions.ButtonsMatchWaitGuard | depreciated_2450_3021b_pulse_measVoltage.py:761-770 | the Wait button is enabled exactly when start_wait's guard passes, and Wait and Cancel are never both enabled |
| ScriptSessions.TriggerOptions.constructor | depreciated_2450_3021b_pulse_measVoltage.py:680-699 | a new panel uses the given session and is not waiting |
| ScriptSessions.TriggerOptions.StartWait | depreciated_2450_3021b_pulse_measVoltage.py:820-852 | the result is WaitStart of the inputs, and the panel is waiting afterwards exactly when it was or the wait started |
| ScriptSessions.TriggerOptions.WaitWorker | depreciated_2450_3021b_pulse_measVoltage.py:854-862 | the reply is the wait query's answer on the session, or the failure without one |
| ScriptSessions.TriggerOptions.HandleWaitResult | depreciated_2450_3021b_pulse_measVoltage.py:864-886 | the panel stops waiting; the callback fires exactly when WaitFires; the log is WaitLog |
| ScriptSessions.TriggerOptions.Disconnect | depreciated_2450_3021b_pulse_measVoltage.py:782-787 | while waiting it refuses and keeps the session; otherwise the session is closed and forgets its scripts |
| ScriptSessions.TriggerOptions.CancelWait | depreciated_2450_3021b_pulse_measVoltage.py:888-895 | only a waiting panel with a connection writes receive_trigger_cancel(); otherwise nothing is written |
| ScriptSessions.LoadSpec | 2450/test_2450_gui_measure-voltage.py:125-151 | the script counts as loaded exactly when no message is shown; a missing file shows its message and writes nothing |
| ScriptSessions.LoadSucceeds | 2450/test_2450_gui_measure-voltage.py:134-148 | when the writes after the delete go out, the script is loaded, wrapped in loadscript and endscript, saved, run and (in the measure window) the output switched off |
| ScriptSessions.LoadFailsOnBodyFault | 2450/2450_async_trigger_measure_voltage.py:192-203 | a failing write after the delete leaves the script unloaded and shows the failure |
| ScriptSessions.MeasureFloatArg | 2450/test_2450_gui_measure-voltage.py:197-205 | the argument is accepted exactly when the shared float-argument check accepts it, with the same text; otherwise "Invalid numeric value: " and the text |
| ScriptSessions.MeasureInputs | 2450/test_2450_gui_measure-voltage.py:159-170 | non-numeric samples are refused first; accepted inputs are int(float(samples)) and the two float arguments |
| ScriptSessions.MeasureSamplesRoundTrip | 2450/test_2450_gui_measure-voltage.py:159-163 | a whole number of samples typed in is passed on unchanged |
| ScriptSessions.Voltmeter.constructor | 2450/test_2450_gui_measure-voltage.py:19-30 | a new window has no instrument and no script loaded |
| ScriptSessions.Voltmeter.LoadScript | 2450/test_2450_gui_measure-voltage.py:125-151 | disconnected or already loaded does nothing; otherwise the result is LoadSpec of the old state |
| ScriptSessions.Voltmeter.EnsureReady | 2450/2450_async_trigger_measure_voltage.py:292-298 | without an instrument it refuses; a loaded script is ready at once; otherwise LoadSpec decides, and ready is whether the script is loaded |
| ScriptSessions.Voltmeter.RunMeasurement | 2450/test_2450_gui_measure-voltage.py:172-183 | the measurement succeeds exactly when both queries are answered, writes exactly the two queries, and returns the buffer reply's values |
| ScriptSessions.Voltmeter.Measure | 2450/test_2450_gui_measure-voltage.py:153-187 | without an instrument it refuses; a missing script is loaded first; refused inputs send only the load; with valid inputs it succeeds iff both queries are written and answered, writing exactly the two queries after the load, and returns the buffer reply's values |
| ScriptSessions.FastCommand | 2450/2450_gui_triggered_different_measure_voltage.py:238-255 | the command is built exactly when every entry is accepted; it is run_fast_external_trigger with seven arguments; the first refused entry's message is shown |
| ScriptSessions.FastBlankEntriesAreNil | 2450/2450_gui_triggered_different_measure_voltage.py:238-255 | blank entries are passed as nil |
| ScriptSessions.RunButtonsExclusive | 2450/2450_gui_triggered_different_measure_voltage.py:459-462 | Run is enabled only when idle, Cancel only when connected and running, never both |
| ScriptSessions.FastTrigger.constructor | 2450/2450_gui_triggered_different_measure_voltage.py:34-50 | a new window is idle with no cancel requested |
| ScriptSessions.FastTrigger.StartMeasurement | 2450/2450_gui_triggered_different_measure_voltage.py:232-276 | without an instrument or script it refuses; while running it refuses; otherwise it runs exactly when FastCommand accepts the entries, clearing any cancel request |
| ScriptSessions.FastTrigger.CancelMeasurement | 2450/2450_gui_triggered_different_measure_voltage.py:278-286 | only a running window with an instrument records the cancel and writes abort |
| ScriptSessions.FastTrigger.Finish | 2450/2450_gui_triggered_different_measure_voltage.py:312-315 | the window stops running |

## Left out

- VISA transport (pyvisa resource managers, opening and closing sessions, `inst.clear`): the instrument is the abstract `Channel.Instrument`, whose reads, write faults and timeout are given to it.
- Exception texts of the VISA layer: the single value `Channel.VisaFailure` stands for every error message pyvisa would raise.
- ParseTotalRuns: a `float()` failure is reported with the fixed text "could not convert string to float", without the quoted entry Python appends to it; the same fixed text stands for the `float()` errors passed through by `SweepReadback.ReadBack`, `Sdg1020.ChannelPlan`, `LoadChoice.ReadLoad` and `TimeUnits`.
- Command rendering: `%.9g`, `{v:g}`, `%.4f` and f-string formatting of numbers. A command is a header with typed arguments, so the model states which value is sent, not its digits.
- IEEE-754 behaviour: every voltage, current and time is a `real`. `inf`, `nan`, underscores in numerals and float rounding are not modelled. `math.isclose` is an explicit predicate.
- TimeUnits.FormatSecondsSI: the `s < 1e99` test of `_format_seconds_si` is not modelled, so a huge duration is shown in seconds instead of as a dash; it exists to catch infinities, which a `real` never is.
- Threads, `root.after` dispatch, `threading.Event` waits and `copy.deepcopy` snapshots: a worker is a sequential method, and a stop event is a sequence of poll answers.
- Wall-clock time: `time.sleep`, `perf_counter` deadlines and the AFG3021B automatic output-off timer. A deadline is a bounded number of polling rounds.
- The instrument's own behaviour: the trigger models, buffer contents, `*OPC?` completion and any readback of settings. Only the Lua helpers and the wait loop of the 2450 trigger-listener script are modelled.
- Tk widgets, message boxes, status-label wording, plots, log text boxes and CSV export. Only the decisions they display are modelled: button enables, status kinds, and which value is shown or appended.
- The contents of the AFG3021B `BURST_RECIPES` table: a recipe is modelled as a list of commands, and its write loop is modelled.
- Connect and disconnect of the 33522B trigger-and-pulse window, and its `force_ch1_off`, `shutdown_outputs` and `query_ch1_status`: they are plain write or query pass-throughs that state nothing beyond what `WriteSequence` proves.
- `ensure_script_from_path` and script-file reading, including the `OSError` path: the script text is a parameter.
- Splitting a script text into lines (`str.splitlines`): every upload takes the script as its list of lines.
- The side effects of the trigger-options `before_wait_callback`: the callback is an opaque step that runs first.
- `clear_display`, `display_hello` and `display_hey` of the 2450 panels: a readiness check and one plain command write each, with no logic of their own.
- The plotting and logging of `2450/test_2450_gui_measure-voltage.py`, and the disconnect of `2450/2450_gui_triggered_different_measure_voltage.py`: display and transport only.
- The message text of the trigger-listener timeout argument error: the error kind is modelled, not its wording.
- The display side of `fetch_new_measurements` of the 2602B sweep (the SI-formatted list, the measurement panel and the plot points): the readings list and the channel traffic are modelled.
- `dsox2004a/2004a_capture_current_window.py` and the other configuration-only test scripts: they contain no logic beyond fixed command writes.
- The pause between switching the SDG1020 output on and off in its software burst: timing only.
- IsSpace: only the six ASCII blanks (space, tab, newline, carriage return, vertical tab, form feed) are white space. Python's `strip()`, `split()` and `float()` also treat `\x1c`-`\x1f`, `\x85`, `\xa0` and the Unicode spaces as blanks, so an entry such as "5\xa0" that the programs accept is refused by every parser here.
- Lower: folds only the ASCII capitals and the Latin-1 capitals U+00C0-U+00DE (except U+00D7). Python's `str.lower()` folds every Unicode capital, so "5\u212Ahz" (with the Kelvin sign) is "5khz" to the programs but stays unfolded here, and every parser refuses it.
- Upper: folds only the ASCII letters. Python's `str.upper()` folds all of Unicode, including the expansions such as "ß" to "SS", so a reply written with such letters compares differently here.
- WaitLoop: requires `WaitEnds`: a timeout, a cancel or a trigger edge at some wait. An untimed wait that sees no edge and no cancel never returns in the program (2450/2450_receive_trigger.py:181-198), so that call is excluded.
- ReceiveTriggerWait: requires `WaitEnds` only for trigger-input modes, since a wait in any other mode answers INVALID_MODE before it starts. A trigger-input wait with no timeout, no edge and no cancel never returns in the program and is excluded, as for WaitLoop.
- SweepSegment: the segment's entry lists follow `RunFold`, the corrected splice (`RunBookkeeping.Finish`), not the program's `FinishAsWritten`; its traffic and adjusted flag are as written.
- PrepareAndRun: its completed runs are given by `Completes` and `Recorded` over `RunFold`, so their lists are those of the corrected splice; the traffic is as written.
- LatchZero: reads its entries with the corrected `TimeUnits.ParseMultiplied` of the Findings table, so "5khz" programs 5000 Hz here where the program as written reads 5.
- ConfigurePostLatch: reads its entries with the corrected `TimeUnits.ParseMultiplied`, so "10us" is 1e-5 s here where the program as written reads 10.
- ArmSystem: the arm commands carry the readings of the corrected `TimeUnits.ParseMultiplied`, not those of the program as written.
- Fire: the reprogramming of a latched channel and the frequency use the corrected `TimeUnits.ParseMultiplied`.
- FireCycles: the post-latch reprogramming uses the corrected `TimeUnits.ParseMultiplied`.
- ContApply: built on the corrected `TimeUnits.ParseContTime`, so it accepts "10µs", which the program as written refuses.
- ContApplyRoundTrip: the units it ranges over include the corrected `µs`; the program as written only has the `Âµs` entry, which never matches.
- ContAccepted: acceptance means the corrected `TimeUnits.ParseContTime`, so it includes `µs` entries the program as written refuses.
- SegmentStep: splices a segment by the corrected `RunBookkeeping.Finish`, not by the program's splice (`FinishAsWritten`), so it describes the intended run lists.
- SegmentStepAppends: "the old lists plus the segment's" holds of the corrected splice; as written the program overwrites the tail of the run lists.
- RunFold: folds the corrected splice, so its lists are the intended ones, not those the program builds.
- RunFoldConcat: the concatenation holds of the corrected splice only.
- FinishSegment: performs the corrected splice.
- RecordSegment: records the lists of the corrected splice; the adjusted flag and the printed log are as written.
- SweepRun: its recorded lists are those of the corrected splice; it requires an instrument because the worker reaches it only after `ensure_script_loaded` has succeeded.
- SweepRuns: its recorded lists are those of the corrected splice; it requires an instrument for the same reason as SweepRun.
- RunOnce: the entry it returns carries the lists of the corrected splice, like SweepRun.
- SweepWorker: its completed entries carry the lists of the corrected splice; the traffic, the adjusted flag and the log are as written.

## Findings

| source | as written | input that shows it | evidently intended | confidence | as-written member | corrected member |
|---|---|---|---|---|---|---|
| 2450/2450_gui_iv_multiple.py:361-379 | a finished segment's readings overwrite the last `len(segment_voltages)` entries of the run lists, and its reconciled levels are spliced in at the live command index | two segments of two points each whose printed rows do not parse but whose buffers read back: the run's voltages end as `[3, 4]` and its commanded levels as `[3, 4, 1, 2]` | the segment's entries, from its first command index on, are replaced by its readings and their reconciled levels | not executed; certain for that input | RunBookkeeping.FinishAsWritten (RunBookkeeping.FinishAsWrittenMisplaces) | RunBookkeeping.Finish (RunBookkeeping.FinishKeepsSegments) |
| 2450/2450_gui_iv_multiple.py:357-360, 424-425 | `_perform_sweep` already adds the segment's printed lines to the run log, and the worker then adds the header and the same lines again | a segment that prints one row: the log is `[row, header, row]` | each header followed once by its segment's lines | not executed; certain | RunBookkeeping.RunLogAsWritten (RunBookkeeping.RunLogDuplicates) | RunBookkeeping.RunLog (RunBookkeeping.RunLogLength) |
| sdg1020/1020_cont_pulse_gui.py:178-191 | the micro-second suffix is spelt `Âµs` (UTF-8 read as Latin-1), and after `lower()` the text can never contain `Â` | `"10µs"` is refused as not a number | `µs` reads as 1e-6 s, like `us` | not executed; certain | TimeUnits.ParseContTimeAsWritten (TimeUnits.ContMicroRejected) | TimeUnits.ParseContTime (TimeUnits.ContMicroAccepted) |
| 3021b/doesnt_work_3021b_trigger_and_pulse.py:166-176 | the multiplier is read off the last character before the unit letters `hz`, `s` and `v` are stripped | `"5khz"` and `"10us"` read as 5 and 10 | the multiplier letter is the one before the unit letters (5000 and 1e-5); the corrected member does not change the program's table, where `m` is mega (1e6): "10m" reads as 1e7 under both, and "10ms" as 1e7 in the corrected member (10 as written) | not executed; certain | TimeUnits.ParseMultipliedAsWritten (TimeUnits.MultipliedReadingsDiffer) | TimeUnits.ParseMultiplied (TimeUnits.ParseMultipliedRoundTrip) |
