/** The device activation ledger of the later program version (main.cpp): devices
    and rooms, the manual toggle, the timer schedule and per-device energy and
    active-time accounting. A record whose offTime is 0 is still running. */
module Ledger {
  import opened Common

  /** The offTime stored in a record that has not been closed yet. */
  const OPEN: int := 0

  predicate IsOpen(r: ActivationRecord) {
    r.offTime == OPEN
  }

  /** End of a record's interval: the current time while it is still open. */
  function EndTime(r: ActivationRecord, now: int): int {
    if IsOpen(r) then now else r.offTime
  }

  function RecordSeconds(r: ActivationRecord, now: int): int {
    EndTime(r, now) - r.onTime
  }

  /** kWh of one record for a device rated `powerRating` watts. */
  function RecordEnergy(powerRating: real, r: ActivationRecord, now: int): real {
    powerRating / 1000.0 * (RecordSeconds(r, now) as real / 3600.0)
  }

  /** Total kWh over a ledger, summed in record order. */
  function Energy(powerRating: real, rs: seq<ActivationRecord>, now: int): real
  {
    if rs == [] then 0.0
    else Energy(powerRating, rs[..|rs| - 1], now) + RecordEnergy(powerRating, Last(rs), now)
  }

  /** Total active seconds over a ledger. */
  function ActiveTime(rs: seq<ActivationRecord>, now: int): int
  {
    if rs == [] then 0 else ActiveTime(rs[..|rs| - 1], now) + RecordSeconds(Last(rs), now)
  }

  // ---------------------------------------------------------------------------
  // Properties of the accounting

  /** Energy is additive over a split of the ledger. */
  lemma {:induction false} EnergyConcat(powerRating: real, a: seq<ActivationRecord>, b: seq<ActivationRecord>, now: int)
    ensures Energy(powerRating, a + b, now) == Energy(powerRating, a, now) + Energy(powerRating, b, now)
    decreases |b|
  {
    if b == [] {
      assert a + b == a;
    } else {
      var b' := b[..|b| - 1];
      assert (a + b)[..|a + b| - 1] == a + b';
      EnergyConcat(powerRating, a, b', now);
    }
  }

  /** Appending a closed record adds exactly its own term. */
  lemma AppendClosedRecord(powerRating: real, rs: seq<ActivationRecord>, r: ActivationRecord, now: int)
    requires !IsOpen(r)
    ensures Energy(powerRating, rs + [r], now)
         == Energy(powerRating, rs, now) + powerRating / 1000.0 * ((r.offTime - r.onTime) as real / 3600.0)
    ensures ActiveTime(rs + [r], now) == ActiveTime(rs, now) + (r.offTime - r.onTime)
  {
    assert (rs + [r])[..|rs|] == rs;
  }

  /** Energy is the rating (in kW) times the active time (in hours). */
  lemma {:induction false} EnergyIsRatingTimesActiveTime(powerRating: real, rs: seq<ActivationRecord>, now: int)
    ensures Energy(powerRating, rs, now) == powerRating / 1000.0 * (ActiveTime(rs, now) as real / 3600.0)
    decreases |rs|
  {
    if rs != [] {
      var init := rs[..|rs| - 1];
      EnergyIsRatingTimesActiveTime(powerRating, init, now);
      var a := ActiveTime(init, now) as real / 3600.0;
      var b := RecordSeconds(Last(rs), now) as real / 3600.0;
      assert (ActiveTime(init, now) + RecordSeconds(Last(rs), now)) as real / 3600.0 == a + b;
      assert powerRating / 1000.0 * (a + b) == powerRating / 1000.0 * a + powerRating / 1000.0 * b;
    }
  }

  /** A ledger without open records does not depend on the time of the report. */
  lemma {:induction false} ClosedLedgerIgnoresNow(rs: seq<ActivationRecord>, now1: int, now2: int)
    requires forall i :: 0 <= i < |rs| ==> !IsOpen(rs[i])
    ensures ActiveTime(rs, now1) == ActiveTime(rs, now2)
    decreases |rs|
  {
    if rs != [] {
      ClosedLedgerIgnoresNow(rs[..|rs| - 1], now1, now2);
    }
  }

  /** While records are open, the active time of a later report is not smaller. */
  lemma {:induction false} ActiveTimeMonotone(rs: seq<ActivationRecord>, now1: int, now2: int)
    requires now1 <= now2
    ensures ActiveTime(rs, now1) <= ActiveTime(rs, now2)
    decreases |rs|
  {
    if rs != [] {
      ActiveTimeMonotone(rs[..|rs| - 1], now1, now2);
    }
  }

  /** Reports of energy never decrease as time passes (for a non-negative rating). */
  lemma EnergyMonotone(powerRating: real, rs: seq<ActivationRecord>, now1: int, now2: int)
    requires powerRating >= 0.0 && now1 <= now2
    ensures Energy(powerRating, rs, now1) <= Energy(powerRating, rs, now2)
  {
    EnergyIsRatingTimesActiveTime(powerRating, rs, now1);
    EnergyIsRatingTimesActiveTime(powerRating, rs, now2);
    ActiveTimeMonotone(rs, now1, now2);
    var a := ActiveTime(rs, now1) as real / 3600.0;
    var b := ActiveTime(rs, now2) as real / 3600.0;
    assert powerRating / 1000.0 * (b - a) >= 0.0;
  }

  /** No interval of the ledger runs backwards at time `now`: a closed record ends
      no earlier than it starts, and an open record started no later than `now`. */
  predicate WellFormedAt(rs: seq<ActivationRecord>, now: int) {
    forall i :: 0 <= i < |rs| ==> rs[i].onTime <= EndTime(rs[i], now)
  }

  /** On a well-formed ledger the active time is non-negative, and so is the energy
      of a device whose rating is non-negative. */
  lemma {:induction false} WellFormedLedgerNonNegative(powerRating: real, rs: seq<ActivationRecord>, now: int)
    requires powerRating >= 0.0 && WellFormedAt(rs, now)
    ensures ActiveTime(rs, now) >= 0
    ensures Energy(powerRating, rs, now) >= 0.0
    decreases |rs|
  {
    if rs != [] {
      var init := rs[..|rs| - 1];
      assert forall i :: 0 <= i < |init| ==> init[i] == rs[i];
      WellFormedLedgerNonNegative(powerRating, init, now);
      assert RecordSeconds(rs[|rs| - 1], now) >= 0;
    }
    EnergyIsRatingTimesActiveTime(powerRating, rs, now);
    assert powerRating / 1000.0 >= 0.0 && ActiveTime(rs, now) as real / 3600.0 >= 0.0;
  }

  // ---------------------------------------------------------------------------
  // Objects

  class Device {
    var name: string
    var powerRating: real
    var status: bool
    var activationRecords: seq<ActivationRecord>

    /** A new device is OFF with an empty ledger. */
    constructor (n: string, p: real)
      ensures Data() == DeviceData(n, p, false, [])
    {
      name, powerRating, status, activationRecords := n, p, false, [];
    }

    function Data(): DeviceData
      reads this
    {
      DeviceData(name, powerRating, status, activationRecords)
    }

    method CalculateEnergyConsumed(now: int) returns (totalEnergy: real)
      ensures totalEnergy == Energy(powerRating, activationRecords, now)
    {
      totalEnergy := 0.0;
      for i := 0 to |activationRecords|
        invariant totalEnergy == Energy(powerRating, activationRecords[..i], now)
      {
        var record := activationRecords[i];
        var endTime := record.offTime;
        if record.offTime == 0 {
          endTime := now;
        }
        var duration := (endTime - record.onTime) as real / 3600.0;
        totalEnergy := totalEnergy + (powerRating / 1000.0) * duration;
        assert activationRecords[..i + 1][..i] == activationRecords[..i];
      }
      assert activationRecords[..|activationRecords|] == activationRecords;
    }

    /** Seconds, accumulated in a floating-point total as the source does. */
    method TotalActiveTime(now: int) returns (totalTime: real)
      ensures totalTime == ActiveTime(activationRecords, now) as real
    {
      totalTime := 0.0;
      for i := 0 to |activationRecords|
        invariant totalTime == ActiveTime(activationRecords[..i], now) as real
      {
        var record := activationRecords[i];
        var endTime := record.offTime;
        if record.offTime == 0 {
          endTime := now;
        }
        totalTime := totalTime + (endTime - record.onTime) as real;
        assert activationRecords[..i + 1][..i] == activationRecords[..i];
      }
      assert activationRecords[..|activationRecords|] == activationRecords;
    }
  }

  function DevicesData(ds: seq<Device>): (r: seq<DeviceData>)
    reads ds
    ensures |r| == |ds| && forall j :: 0 <= j < |ds| ==> r[j] == ds[j].Data()
  {
    if ds == [] then [] else DevicesData(ds[..|ds| - 1]) + [Last(ds).Data()]
  }

  class Room {
    var name: string
    var devices: seq<Device>

    constructor (n: string)
      ensures name == n && devices == []
    {
      name, devices := n, [];
    }

    function Data(): RoomData
      reads this, devices
    {
      RoomData(name, DevicesData(devices))
    }
  }

  /** One pass of the device prompt: a rating that is not positive is refused
      (the prompt repeats); otherwise a new OFF device joins the end of the room. */
  method AddDevice(room: Room, deviceName: string, powerRating: real) returns (accepted: bool)
    modifies room
    ensures accepted == (powerRating > 0.0)
    ensures room.name == old(room.name)
    ensures !accepted ==> room.devices == old(room.devices)
    ensures accepted ==>
      && |room.devices| == |old(room.devices)| + 1
      && room.devices[..|old(room.devices)|] == old(room.devices)
      && fresh(Last(room.devices))
      && Last(room.devices).Data() == DeviceData(deviceName, powerRating, false, [])
  {
    if powerRating <= 0.0 {
      return false;
    }
    var device := new Device(deviceName, powerRating);
    room.devices := room.devices + [device];
    accepted := true;
  }

  /** The room prompt: a count that is not positive is refused; otherwise one new
      empty room per name is added after the existing ones. */
  method AddRooms(rooms: seq<Room>, names: seq<string>) returns (accepted: bool, result: seq<Room>)
    ensures accepted == (|names| > 0)
    ensures !accepted ==> result == rooms
    ensures accepted ==>
      && |result| == |rooms| + |names|
      && result[..|rooms|] == rooms
      && forall j :: |rooms| <= j < |result| ==>
           fresh(result[j]) && result[j].name == names[j - |rooms|] && result[j].devices == []
  {
    if |names| <= 0 {
      return false, rooms;
    }
    result := rooms;
    for i := 0 to |names|
      invariant |result| == |rooms| + i && result[..|rooms|] == rooms
      invariant forall j :: |rooms| <= j < |result| ==>
        fresh(result[j]) && result[j].name == names[j - |rooms|] && result[j].devices == []
    {
      var room := new Room(names[i]);
      result := result + [room];
    }
    accepted := true;
  }

  // ---------------------------------------------------------------------------
  // Manual toggle

  /** The device's ledger after the manual toggle at time `now`. */
  function Toggled(d: DeviceData, now: int): (e: DeviceData)
    ensures e.name == d.name && e.powerRating == d.powerRating
    ensures e.status == !d.status
    ensures !d.status ==> e.records == d.records + [ActivationRecord(now, OPEN)]
    ensures d.status ==>
      && |e.records| == |d.records|
      && (forall i :: 0 <= i < |d.records| - 1 ==> e.records[i] == d.records[i])
      && (d.records != [] ==> Last(e.records) == ActivationRecord(Last(d.records).onTime, now))
  {
    if d.status then
      var rs := d.records;
      d.(status := false, records := if rs == [] then [] else rs[|rs| - 1 := rs[|rs| - 1].(offTime := now)])
    else
      d.(status := true, records := d.records + [ActivationRecord(now, OPEN)])
  }

  method Toggle(device: Device, now: int)
    modifies device
    ensures device.Data() == Toggled(old(device.Data()), now)
  {
    if device.status {
      device.status := false;
      if device.activationRecords != [] {
        var last := |device.activationRecords| - 1;
        device.activationRecords := device.activationRecords[last := device.activationRecords[last].(offTime := now)];
      }
    } else {
      device.status := true;
      var newRecord := ActivationRecord(now, 0);
      device.activationRecords := device.activationRecords + [newRecord];
    }
  }

  /** The device after toggling at each of `times` in turn. */
  function ToggleHistory(d: DeviceData, times: seq<int>): DeviceData
  {
    if times == [] then d else Toggled(ToggleHistory(d, times[..|times| - 1]), Last(times))
  }

  /** Toggles alone from a new device: record i runs from toggle 2i to toggle 2i+1,
      the last one still open when the number of toggles is odd. */
  lemma {:induction false} ToggleHistoryShape(name: string, powerRating: real, times: seq<int>)
    ensures var e := ToggleHistory(DeviceData(name, powerRating, false, []), times);
      && e.name == name && e.powerRating == powerRating
      && e.status == (|times| % 2 == 1)
      && |e.records| == (|times| + 1) / 2
      && (forall i :: 0 <= i < |e.records| ==> e.records[i].onTime == times[2 * i])
      && (forall i :: 0 <= i < |e.records| ==>
            e.records[i].offTime == if 2 * i + 1 < |times| then times[2 * i + 1] else OPEN)
  {
    if times != [] {
      var init := times[..|times| - 1];
      ToggleHistoryShape(name, powerRating, init);
      var p := ToggleHistory(DeviceData(name, powerRating, false, []), init);
      assert forall i :: 0 <= i < |init| ==> init[i] == times[i];
    }
  }

  /** With real clock readings (never the sentinel 0), a toggled device is ON
      exactly when its last record is open. */
  lemma StatusIsLastRecordOpen(name: string, powerRating: real, times: seq<int>)
    requires forall k :: 0 <= k < |times| ==> times[k] != OPEN
    ensures var e := ToggleHistory(DeviceData(name, powerRating, false, []), times);
      e.status <==> (e.records != [] && IsOpen(Last(e.records)))
  {
    ToggleHistoryShape(name, powerRating, times);
  }

  /** With a clock that never runs backwards, every record of a toggled device but
      the last is closed, and closed records end no earlier than they start. */
  lemma ToggledRecordsAreIntervals(name: string, powerRating: real, times: seq<int>)
    requires forall k :: 0 <= k < |times| ==> times[k] != OPEN
    requires forall j, k :: 0 <= j < k < |times| ==> times[j] <= times[k]
    ensures var e := ToggleHistory(DeviceData(name, powerRating, false, []), times);
      && (forall i :: 0 <= i < |e.records| - 1 ==> !IsOpen(e.records[i]))
      && (forall i :: 0 <= i < |e.records| && !IsOpen(e.records[i]) ==>
            e.records[i].onTime <= e.records[i].offTime)
  {
    ToggleHistoryShape(name, powerRating, times);
  }

  /** With a clock that never runs backwards, a toggled device's ledger is well
      formed at any later report time, so its energy and active time are
      non-negative. */
  lemma ToggledLedgerIsWellFormed(name: string, powerRating: real, times: seq<int>, now: int)
    requires forall k :: 0 <= k < |times| ==> times[k] != OPEN && times[k] <= now
    requires forall j, k :: 0 <= j < k < |times| ==> times[j] <= times[k]
    ensures WellFormedAt(ToggleHistory(DeviceData(name, powerRating, false, []), times).records, now)
  {
    ToggleHistoryShape(name, powerRating, times);
  }

  // ---------------------------------------------------------------------------
  // Timer schedule

  /** The three messages the schedule prints about the device's current state. */
  datatype ScheduleNotice = CurrentlyOn | AlreadyOff | WillTurnOn

  function Notice(rec: ActivationRecord, now: int): (n: ScheduleNotice)
    ensures n == CurrentlyOn <==> rec.onTime <= now < rec.offTime
    ensures n == AlreadyOff <==> rec.offTime <= now
    ensures n == WillTurnOn <==> now < rec.onTime && now < rec.offTime
  {
    if rec.onTime - now <= 0 && rec.offTime - now > 0 then CurrentlyOn
    else if rec.offTime - now <= 0 then AlreadyOff
    else WillTurnOn
  }

  /** The device after a successful schedule of `rec`: the record is appended
      whatever the ledger holds, and the status is recomputed from `now`. */
  function Scheduled(d: DeviceData, rec: ActivationRecord, now: int): (e: DeviceData)
    ensures e.name == d.name && e.powerRating == d.powerRating
    ensures e.records == d.records + [rec]
    ensures e.status <==> rec.onTime <= now < rec.offTime
  {
    d.(records := d.records + [rec], status := Notice(rec, now) == CurrentlyOn)
  }

  method Schedule(device: Device, onClock: Option<ClockTime>, offClock: Option<ClockTime>, todayMidnight: int, now: int)
    returns (r: Result<ScheduleNotice, ScheduleError>)
    modifies device
    ensures match PlanSchedule(onClock, offClock, todayMidnight)
      case Err(e) => r == Err(e) && device.Data() == old(device.Data())
      case Ok(rec) => r == Ok(Notice(rec, now)) && device.Data() == Scheduled(old(device.Data()), rec, now)
  {
    if onClock.None? {
      return Err(InvalidOnTimeFormat);
    }
    if offClock.None? {
      return Err(InvalidOffTimeFormat);
    }
    var onTime := Resolve(todayMidnight, onClock.value);
    var offTime := Resolve(todayMidnight, offClock.value);
    if offTime - onTime <= 0 {
      return Err(OffNotAfterOn);
    }
    device.activationRecords := device.activationRecords + [ActivationRecord(onTime, offTime)];
    if onTime - now <= 0 && offTime - now > 0 {
      device.status := true;
      r := Ok(CurrentlyOn);
    } else if offTime - now <= 0 {
      device.status := false;
      r := Ok(AlreadyOff);
    } else {
      device.status := false;
      r := Ok(WillTurnOn);
    }
  }

  /** A successful schedule on a day after the epoch appends a closed, forward
      interval, so it keeps a well-formed ledger well formed. */
  lemma ScheduledKeepsWellFormed(d: DeviceData, onClock: Option<ClockTime>, offClock: Option<ClockTime>, todayMidnight: int, now: int)
    requires todayMidnight >= 0 && WellFormedAt(d.records, now)
    requires PlanSchedule(onClock, offClock, todayMidnight).Ok?
    ensures WellFormedAt(Scheduled(d, PlanSchedule(onClock, offClock, todayMidnight).value, now).records, now)
  {
    var rec := PlanSchedule(onClock, offClock, todayMidnight).value;
    var rs := Scheduled(d, rec, now).records;
    assert !IsOpen(rec);
    assert forall i :: 0 <= i < |d.records| ==> rs[i] == d.records[i];
  }

  // ---------------------------------------------------------------------------
  // Histories that mix toggles and schedules

  /** One change to a device: a manual toggle at clock reading `t`, or an accepted
      schedule of `rec` made at clock reading `t`. */
  datatype Step = ToggleStep(t: int) | ScheduleStep(rec: ActivationRecord, t: int)

  /** The device after `steps`, applied in order. */
  function Replay(d: DeviceData, steps: seq<Step>): DeviceData
  {
    if steps == [] then d
    else
      var p := Replay(d, steps[..|steps| - 1]);
      match Last(steps)
      case ToggleStep(t) => Toggled(p, t)
      case ScheduleStep(rec, t) => Scheduled(p, rec, t)
  }

  /** The ledger is well formed at clock reading `t`, and when the device is ON its
      last record started no later than `t`. */
  predicate ClockedAt(d: DeviceData, t: int) {
    WellFormedAt(d.records, t) && (d.status && d.records != [] ==> Last(d.records).onTime <= t)
  }

  /** A later clock reading keeps the ledger well formed. */
  lemma ClockedLater(d: DeviceData, t: int, t': int)
    requires ClockedAt(d, t) && t <= t'
    ensures ClockedAt(d, t')
  {
    assert forall i :: 0 <= i < |d.records| ==> EndTime(d.records[i], t) <= EndTime(d.records[i], t');
  }

  /** A toggle at a clock reading no earlier than the ledger's keeps it well
      formed, whatever record it closes. */
  lemma ToggledKeepsWellFormed(d: DeviceData, t: int, now: int)
    requires t != OPEN && t <= now && ClockedAt(d, t)
    ensures ClockedAt(Toggled(d, t), now)
  {
    var e := Toggled(d, t);
    if d.status && d.records != [] {
      assert forall i :: 0 <= i < |d.records| - 1 ==> e.records[i] == d.records[i];
      assert d.records[|d.records| - 1] == Last(d.records);
    } else if !d.status {
      assert forall i :: 0 <= i < |d.records| ==> e.records[i] == d.records[i];
    }
    ClockedLater(e, t, now);
  }

  /** An accepted schedule, whose record is closed and runs forward, keeps the
      ledger well formed; if it turns the device ON, its record started by `t`. */
  lemma ScheduledKeepsClocked(d: DeviceData, rec: ActivationRecord, t: int)
    requires ClockedAt(d, t) && !IsOpen(rec) && rec.onTime <= rec.offTime
    ensures ClockedAt(Scheduled(d, rec, t), t)
  {
    var rs := Scheduled(d, rec, t).records;
    assert forall i :: 0 <= i < |d.records| ==> rs[i] == d.records[i];
  }

  /** For a history of toggles and accepted schedules from a new device, with a
      clock that never runs backwards and never reads 0, the ledger is well formed
      at any report time no earlier than the last step, so its energy and active
      time are non-negative. */
  lemma {:induction false} ReplayWellFormed(name: string, powerRating: real, steps: seq<Step>, now: int)
    requires forall i :: 0 <= i < |steps| ==> steps[i].t != OPEN && steps[i].t <= now
    requires forall i, j :: 0 <= i < j < |steps| ==> steps[i].t <= steps[j].t
    requires forall i :: 0 <= i < |steps| && steps[i].ScheduleStep? ==>
      !IsOpen(steps[i].rec) && steps[i].rec.onTime <= steps[i].rec.offTime
    ensures ClockedAt(Replay(DeviceData(name, powerRating, false, []), steps), now)
    decreases |steps|
  {
    var d0 := DeviceData(name, powerRating, false, []);
    if steps != [] {
      var init := steps[..|steps| - 1];
      var s := steps[|steps| - 1];
      assert forall i :: 0 <= i < |init| ==> init[i] == steps[i];
      ReplayWellFormed(name, powerRating, init, s.t);
      var p := Replay(d0, init);
      match s
      case ToggleStep(t) =>
        ToggledKeepsWellFormed(p, t, now);
      case ScheduleStep(rec, t) =>
        ScheduledKeepsClocked(p, rec, t);
        ClockedLater(Scheduled(p, rec, t), t, now);
    }
  }

  /** Scheduling never closes a record left open by a toggle: after toggle ON,
      a schedule whose window has passed, and a second toggle, two records are open. */
  lemma ScheduleLeavesToggleOpen(name: string, powerRating: real, t1: int, rec: ActivationRecord, now: int, t2: int)
    requires t1 != OPEN && t2 != OPEN && !IsOpen(rec) && rec.offTime <= now
    ensures var s := Scheduled(Toggled(DeviceData(name, powerRating, false, []), t1), rec, now);
      && !s.status && IsOpen(s.records[0])
      && var e := Toggled(s, t2);
         e.status && |e.records| == 3 && IsOpen(e.records[0]) && IsOpen(e.records[2])
  {
  }
}
