# mySmart Home activation ledger, in Dafny

This project models the energy-accounting core of the mySmart Home console program.
The program has two versions:

- `main.cpp` is the later, hardened version;
- `main.c++` is the earlier version.

Every device keeps a ledger of activation records. A record is an ON timestamp and an
OFF timestamp, both in seconds. Two operations change a ledger:

- the manual toggle opens a record or closes the last one;
- the timer schedule validates an `HH:MM` pair for today and adds a record.

From the ledgers the program computes:

- each device's energy: rating in kW times hours ON;
- each device's active time in seconds;
- the report: the energy of every room, the whole-home total, and its cost at 0.009 fils per kWh;
- three trends: the top room by energy, the top device by energy, and the device active longest.

Each trend is a scan that keeps the first strictly greater value.

The two versions differ as follows.

- **Open records.** In `main.cpp` an open record has `offTime == 0`, and reports use the current time as its end. In `main.c++` turning a device ON writes a record with `offTime == onTime`, so a running interval counts for nothing until it is closed.
- **Trend starting value.** `main.cpp` starts each running maximum at -1 and prints a "no data" line when the running maximum ends below 0. When no value is negative, that happens only when there is nothing to scan. `main.c++` starts at 0 with an empty name and always prints the line.
- **Timer mode.** `main.cpp` appends the planned record and sets the status from the current time. `main.c++` blocks until the ON time, turns the device ON, blocks until the OFF time and turns it OFF.

Modules:

- `Common` (`common.dfy`) holds what both versions share:
  - the record, device and room values;
  - the `HH:MM` resolution and schedule validation, which are identical in both files;
  - sums;
  - the first-wins arg-max (`IsFirstArgMax`);
  - the flattened device order of the device trends, with captions `"<device> in <room>"`.
- `Ledger` (`ledger.dfy`) and `Reports` (`reports.dfy`) model `main.cpp`.
- `EarlyLedger` (`early_ledger.dfy`) and `EarlyReports` (`early_reports.dfy`) model `main.c++`.

`Device` and `Room` are classes whose fields the operations update in place. The loops of the source are methods with loop invariants. Each is proved against a specification function: the recursive `Energy`, `ActiveTime`, `Sum` and `Entries`, or the sequence comprehensions built on them (`RoomEnergies`, `EntryEnergies`, `EntryActiveTimes`). The source's promises are proved as lemmas about those functions.

The clock is a parameter:

- `now` is the value of `time(nullptr)`. The source reads the clock again for every open record it meets; the model takes one reading per operation (see "## Left out").
- `todayMidnight` is the start of the current local day. An `HH:MM` reading becomes `todayMidnight + H*3600 + M*60`.
- A failed parse is `None`.
- In the early timer mode, the two clock readings taken after the waits are parameters (`onReading`, `offReading`).

Energies are `real`.

Two behaviours of `main.cpp` are worth stating outright.

- A device's status need not agree with whether its last record is open. A schedule sets the status from its window and leaves an earlier open record open (`Ledger.ScheduleLeavesToggleOpen`).
- A trend prints "no data" when its running maximum ends below 0. That happens for a winner whose value lies between -1 and 0, and when every value is -1 or below. When no value is negative, it happens only when there is nothing to scan, so a sole zero-energy room is still reported (`Reports.NoDataOnlyWhenNothingToScan`). No value is negative when every rating is non-negative and no interval runs backwards at the report time (`Reports.SoundTrendsReport`). A clock that never runs backwards and never reads 0 gives such ledgers for any history of toggles and accepted schedules from a new device, at any report time no earlier than its last step (`Ledger.ReplayWellFormed`). A clock that steps back below an open record's start does not, and then a trend can print "no data" although there is something to scan.

## Model

| member | source | states |
|---|---|---|
| Common.Resolve | main.cpp:493-505 | the timestamp of an `HH:MM` reading on today's date (seconds 0) lies within the day, and its hour and minute are recovered from it |
| Common.ResolveOrder | main.cpp:507 | one resolved time is earlier than another exactly when its clock reading is earlier in the day |
| Common.PlanSchedule | main.cpp:477-510 | a bad ON reading is reported first, then a bad OFF reading; with both parsed, the schedule is accepted iff OFF is later in the day than ON; an accepted interval has the resolved times and lasts between 0 and 24 hours, both exclusive |
| Common.ArgMaxStep | main.cpp:592-595 | one step of a trend scan: a strictly greater value becomes the winner at the new index, and a tie or smaller value keeps the earlier winner |
| Common.FirstArgMaxUnique | main.cpp:585-640 | the winner of a trend scan is determined by the values alone |
| Ledger.EnergyConcat | main.cpp:47-58 | energy is additive over any split of the ledger |
| Ledger.AppendClosedRecord | main.cpp:47-72 | appending a closed record adds exactly `P/1000 * (off-on)/3600` to the energy and `off-on` to the active time |
| Ledger.EnergyIsRatingTimesActiveTime | main.cpp:47-72 | energy equals the rating in kW times the active time in hours, with the same open-record rule in both sums |
| Ledger.ClosedLedgerIgnoresNow | main.cpp:62-72 | without open records the active time does not depend on the current time |
| Ledger.ActiveTimeMonotone | main.cpp:62-72 | a later report never shows less active time |
| Ledger.EnergyMonotone | main.cpp:47-58 | for a non-negative rating, a later report never shows less energy |
| Ledger.WellFormedLedgerNonNegative | main.cpp:47-72 | when no interval runs backwards at `now`, active time is non-negative, and so is energy for a non-negative rating |
| Ledger.Device.constructor | main.cpp:44 | a new device has the given name and rating, is OFF and has no records |
| Ledger.Device.CalculateEnergyConsumed | main.cpp:47-58 | the loop returns the energy of the ledger, an open record (`offTime == 0`) ending at `now` |
| Ledger.Device.TotalActiveTime | main.cpp:62-72 | the loop returns the active seconds of the ledger under the same rule |
| Ledger.Room.constructor | main.cpp:82 | a new room has the given name and no devices |
| Ledger.AddDevice | main.cpp:311-318 | a rating that is not positive is refused and the room is unchanged; otherwise exactly one new OFF device with an empty ledger is appended |
| Ledger.AddRooms | main.cpp:268-281 | a count that is not positive is refused; otherwise one new empty room per name is appended after the existing rooms, in order |
| Ledger.Toggled | main.cpp:408-425 | OFF to ON appends exactly `{now, 0}`; ON to OFF keeps the length, keeps every record but the last, and closes the last at `now` if there is one; the status flips and nothing else changes |
| Ledger.Toggle | main.cpp:408-425 | the toggle updates the device object to `Toggled` of its old value |
| Ledger.ToggleHistoryShape | main.cpp:408-425 | from a new device, after N toggles the status is ON iff N is odd, there are ceil(N/2) records, and record i runs from toggle 2i to toggle 2i+1, or is still open |
| Ledger.StatusIsLastRecordOpen | main.cpp:408-425 | with real clock readings, a toggled device is ON iff its last record is open |
| Ledger.ToggledRecordsAreIntervals | main.cpp:408-425 | with a clock that never runs backwards, all records but the last are closed and closed records do not end before they start |
| Ledger.ToggledLedgerIsWellFormed | main.cpp:408-425 | with a clock that never runs backwards, no interval of a toggled ledger runs backwards at any later report time, the open one included |
| Ledger.Notice | main.cpp:521-536 | the status message is "currently ON" iff `on <= now < off`, "currently OFF" iff `off <= now`, and "will turn ON" otherwise |
| Ledger.Scheduled | main.cpp:512-536 | a successful schedule appends the planned record whatever the ledger holds and sets the status iff `on <= now < off` |
| Ledger.ScheduledKeepsWellFormed | main.cpp:493-515 | on a day after the epoch, an accepted schedule appends a closed forward interval and keeps a well-formed ledger well formed |
| Ledger.ClockedLater | main.cpp:47-72 | a ledger with no backward interval at one clock reading has none at any later reading |
| Ledger.ToggledKeepsWellFormed | main.cpp:408-425 | a toggle at a reading no earlier than the ledger's keeps it well formed, including when it closes a record that a schedule appended, and an ON device's last record started by that reading |
| Ledger.ScheduledKeepsClocked | main.cpp:513-536 | an accepted schedule keeps the ledger well formed, and when it turns the device ON its record started by the current reading |
| Ledger.ReplayWellFormed | main.cpp:408-536 | after any history of toggles and accepted schedules from a new device, under a clock that never runs backwards or reads 0, the ledger is well formed at every later report time |
| Ledger.Schedule | main.cpp:477-536 | a parse failure or an OFF time not after the ON time returns that error and leaves the device unchanged; otherwise the device becomes `Scheduled` and the message is `Notice` |
| Ledger.ScheduleLeavesToggleOpen | main.cpp:512-536 | a schedule never closes a record left open by a toggle, so a device can be OFF with an open record, and a second toggle opens another one |
| Reports.TotalIsSumOverDevices | main.cpp:560-570 | the total of the room sums equals the sum over every device in room order |
| Reports.OneKilowattHour | main.cpp:555-571 | a 1000 W device with one closed hour uses 1 kWh, and a home made of it costs 0.009 |
| Reports.MeasureRoom | main.cpp:562-566 | the inner loop returns the room's energy, the sum of its devices' energies |
| Reports.DisplayReports | main.cpp:555-571 | the per-room energies are those of the rooms in order, the total is their sum, and the cost is the total times 0.009 |
| Reports.ScanRooms | main.cpp:585-596 | the room scan ends with the first room whose energy is above -1 and not below any other room's, with that energy and name, or with -1 when no room is above -1 |
| Reports.TopRoom | main.cpp:585-602 | the room line names the first room of highest energy, with that energy, when that energy is ≥ 0; otherwise it is "no data" (no room above -1, or a winner below 0) |
| Reports.ScanOutcome | main.cpp:597-601 | after a scan the running maximum is non-negative iff a winner with a non-negative value exists, and then the printed value and caption are the winner's |
| Reports.ScanRoomEnergy | main.cpp:608-613 | the inner device scan carries the first-wins maximum across one room's devices |
| Reports.ScanRoomActiveTime | main.cpp:627-632 | the same for active time |
| Reports.ScanEnergies | main.cpp:605-614 | the device scan covers every device of every room in order, carrying the first-wins maximum and its caption |
| Reports.TopDevice | main.cpp:605-621 | the device line names the first device of highest energy as `"<device> in <room>"`, or is "no data" |
| Reports.ScanActiveTimes | main.cpp:624-633 | the active-time scan over every device in order |
| Reports.LongestActive | main.cpp:624-640 | the longest-active line names the first device of longest active time and shows it in hours (seconds / 3600), or is "no data" |
| Reports.NoDataOnlyWhenNothingToScan | main.cpp:585-602 | with the -1 start and when no value is negative, a winner is reported iff there is something to scan, so a sole zero-energy room is reported |
| Reports.TieGoesToFirst | main.cpp:592-595 | a corollary of the first-wins scan: on a tie for the maximum, the earlier room or device wins |
| Reports.RoomEnergiesNonNegative | main.cpp:586-591 | when every device has a non-negative rating and a well-formed ledger, every room energy the room trend compares is non-negative |
| Reports.SoundTrendsReport | main.cpp:585-640 | on such rooms the room trend prints "no data" iff there are no rooms, and each device trend iff there are no devices |
| EarlyLedger.AppendRecord | main.c++:39-55 | appending a record adds exactly its energy term and its `off-on` seconds |
| EarlyLedger.EnergyIsRatingTimesActiveTime | main.c++:39-55 | energy equals the rating in kW times the active time in hours; neither looks at the current time |
| EarlyLedger.CloseLast | main.c++:320 | overwriting the last record's offTime changes the active time by exactly the change of that record's length |
| EarlyLedger.Device.constructor | main.c++:36 | a new device has the given name and rating, is OFF and has no records |
| EarlyLedger.Device.CalculateEnergyConsumed | main.c++:39-46 | the loop returns the energy of the ledger |
| EarlyLedger.Device.TotalActiveTime | main.c++:49-55 | the loop returns the active seconds of the ledger |
| EarlyLedger.Room.constructor | main.c++:64 | a new room has the given name and no devices |
| EarlyLedger.Toggled | main.c++:317-330 | OFF to ON appends exactly `{now, now}`; ON to OFF keeps every record but the last and sets the last offTime to `now`; the status flips |
| EarlyLedger.Toggle | main.c++:317-330 | the toggle updates the device object to `Toggled` of its old value; turning OFF requires a record to close |
| EarlyLedger.ToggledKeepsConsistent | main.c++:317-330 | toggles keep "ON implies a last record of zero length", so every toggle OFF has a record to close |
| EarlyLedger.ToggleOnAddsNothing | main.c++:324-328 | turning ON changes neither energy nor active time |
| EarlyLedger.ToggleOffCreditsInterval | main.c++:317-321 | turning OFF adds exactly the seconds since the matching toggle ON |
| EarlyLedger.ToggleHistory | main.c++:317-330 | any toggle sequence from a consistent device yields a consistent device |
| EarlyLedger.ToggleHistoryShape | main.c++:317-330 | from a new device, after N toggles the status is ON iff N is odd, there are ceil(N/2) records, and record i runs from toggle 2i to toggle 2i+1, or has length 0 |
| EarlyLedger.ToggleParity | main.c++:317-330 | from an OFF device, the status is ON exactly after an odd number of toggles |
| EarlyLedger.RunningIntervalNotCounted | main.c++:39-55 | while a device is ON its running interval adds nothing to energy or active time |
| EarlyLedger.ZeroLengthAmbiguity | main.c++:324-328 | a running record and a closed zero-length record are the same value; only the status tells them apart |
| EarlyLedger.TimerRun | main.c++:416-431 | a completed timer run appends one record from the ON reading to the OFF reading and leaves the device OFF |
| EarlyLedger.TimerMode | main.c++:369-432 | the timer returns the validation result; on a parse failure or an OFF time not after the ON time the device is unchanged; otherwise its net effect is `TimerRun` |
| EarlyLedger.IdealTimerRunCredit | main.c++:405-431 | with an exact clock, a timer run credits the part of the planned window after `now` (all of it if not yet started, nothing if over), and the record does not end before it starts |
| EarlyReports.TotalIsSumOverDevices | main.c++:456-466 | the total of the room sums equals the sum over every device in room order |
| EarlyReports.MeasureRoom | main.c++:458-462 | the inner loop returns the room's energy |
| EarlyReports.DisplayReports | main.c++:451-467 | the per-room energies are those of the rooms in order, the total is their sum, and the cost is the total times 0.009 |
| EarlyReports.ScanRooms | main.c++:481-492 | the room scan ends with the first room of highest energy above 0, or with -1, the empty name and 0 |
| EarlyReports.TopRoom | main.c++:481-494 | the room line shows that room's name and energy, or the empty name and 0 |
| EarlyReports.ScanRoomEnergy | main.c++:500-505 | the inner device scan carries the first-wins maximum above 0 across one room |
| EarlyReports.ScanRoomActiveTime | main.c++:515-520 | the same for active time |
| EarlyReports.ScanEnergies | main.c++:497-506 | the device scan covers every device of every room in order |
| EarlyReports.TopDevice | main.c++:497-509 | the device line shows the first device of highest energy above 0 as `"<device> in <room>"`, or the empty caption and 0 |
| EarlyReports.ScanActiveTimes | main.c++:512-521 | the active-time scan over every device in order |
| EarlyReports.LongestActive | main.c++:512-524 | the longest-active line shows the first device of longest active time above 0, in hours, or the empty caption and 0 hours |
| EarlyReports.ZeroNeverWins | main.c++:482-492 | a value of exactly 0 never wins, so when nothing has consumed energy the trend names nobody |
| EarlyReports.IdleRoomUnnamed | main.c++:481-494 | a home with one room holding an idle device: this version names no room, while the later version names that room |

## Left out

- Menus, banners, `enquireDeviceStatus`, `updateFeatures` and `authenticateUser`: console I/O only.
- The choice of room and device by menu index in manual and timer mode, with its re-prompts: console I/O. The model's operations take the chosen `Device` object.
- The re-prompt loops of `addRooms` and `addDevices`: console I/O. The model takes the answers as inputs. `Ledger.AddRooms` refuses an empty count, and `Ledger.AddDevice` refuses one non-positive rating.
- The per-room loop of `addDevices`, its device-count prompt and its "no rooms" message: the loop and the message are not modelled; each accepted device is one `Ledger.AddDevice`.
- `addRooms` and `addDevices` of the earlier version: these have no validation and are not modelled.
- Clock and calendar: `time`, `localtime`, `mktime`, `get_time`, `strftime`. These are parameters: `now`, `todayMidnight`, a parsed `Option<ClockTime>`, and the early timer's two readings. Time zones and daylight-saving changes are therefore not modelled.
- Ledger.Device.CalculateEnergyConsumed, Ledger.Device.TotalActiveTime, Reports.DisplayReports, Reports.TopRoom, Reports.TopDevice, Reports.LongestActive: the source reads the clock once per open record inside `calculateEnergyConsumed` and `totalActiveTime` (main.cpp:53, main.cpp:68). Through them it reads it again for every device of the report (main.cpp:564) and in each of the three trend scans (main.cpp:590, main.cpp:609, main.cpp:628). The model evaluates every record, every device and all three scans at one `now`, so it does not capture readings that differ within one report.
- The `sleep_for` waits of the early timer mode, including the truncation of the wait to whole seconds: only their net effect is modelled, through the two clock readings. `EarlyLedger.IdealTimerRunCredit` states what an exact clock gives.
- `TopRoom`, `TopDevice` and `LongestActive` of both versions return the winner's index in addition to what the source prints. The index is the value the contracts name.
- IEEE `double` rounding in the energy, time and cost arithmetic: energies are exact reals, so no bit-exact floating-point result is claimed.
- Printing of the values (formatting, units): only the values are modelled.

## Findings

| source | as written | input that shows it | evidently intended | confidence | as-written member | corrected member |
|---|---|---|---|---|---|---|
| main.c++:481-494 | every trend starts its running maximum at 0 with an empty name, and only a strictly greater value wins | one room with one idle device (energy 0): the room line prints an empty name and 0 kWh | a genuine zero value is still reported, and with no negative values "no data" appears only when there is nothing to scan, as the later version does with its -1 start | medium, not executed | EarlyReports.IdleRoomUnnamed | Reports.NoDataOnlyWhenNothingToScan |
