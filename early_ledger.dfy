/** The device activation ledger of the earlier program version (main.c++). There is
    no open-record sentinel: turning a device ON appends a record whose offTime equals
    its onTime, so a running interval counts for nothing until it is closed, and the
    energy and active time never look at the current time. */
module EarlyLedger {
  import opened Common

  function RecordSeconds(r: ActivationRecord): int {
    r.offTime - r.onTime
  }

  function RecordEnergy(powerRating: real, r: ActivationRecord): real {
    powerRating / 1000.0 * (RecordSeconds(r) as real / 3600.0)
  }

  /** Total kWh over a ledger, summed in record order. */
  function Energy(powerRating: real, rs: seq<ActivationRecord>): real
  {
    if rs == [] then 0.0 else Energy(powerRating, rs[..|rs| - 1]) + RecordEnergy(powerRating, Last(rs))
  }

  /** Total active seconds over a ledger. */
  function ActiveTime(rs: seq<ActivationRecord>): int
  {
    if rs == [] then 0 else ActiveTime(rs[..|rs| - 1]) + RecordSeconds(Last(rs))
  }

  /** Appending a record adds exactly its own term to both totals. */
  lemma AppendRecord(powerRating: real, rs: seq<ActivationRecord>, r: ActivationRecord)
    ensures Energy(powerRating, rs + [r]) == Energy(powerRating, rs) + powerRating / 1000.0 * ((r.offTime - r.onTime) as real / 3600.0)
    ensures ActiveTime(rs + [r]) == ActiveTime(rs) + (r.offTime - r.onTime)
  {
    assert (rs + [r])[..|rs|] == rs;
  }

  /** Energy is the rating (in kW) times the active time (in hours). */
  lemma {:induction false} EnergyIsRatingTimesActiveTime(powerRating: real, rs: seq<ActivationRecord>)
    ensures Energy(powerRating, rs) == powerRating / 1000.0 * (ActiveTime(rs) as real / 3600.0)
    decreases |rs|
  {
    if rs != [] {
      var init := rs[..|rs| - 1];
      EnergyIsRatingTimesActiveTime(powerRating, init);
      var a := ActiveTime(init) as real / 3600.0;
      var b := RecordSeconds(Last(rs)) as real / 3600.0;
      assert (ActiveTime(init) + RecordSeconds(Last(rs))) as real / 3600.0 == a + b;
      assert powerRating / 1000.0 * (a + b) == powerRating / 1000.0 * a + powerRating / 1000.0 * b;
    }
  }

  /** Changing only the last record's offTime moves the active time by exactly the
      change of that record's length. */
  lemma CloseLast(rs: seq<ActivationRecord>, t: int)
    requires rs != []
    ensures var rs' := rs[|rs| - 1 := Last(rs).(offTime := t)];
      ActiveTime(rs') == ActiveTime(rs) + (t - Last(rs).offTime)
  {
    var rs' := rs[|rs| - 1 := Last(rs).(offTime := t)];
    assert rs'[..|rs'| - 1] == rs[..|rs| - 1];
  }

  /** What the toggles keep true: a device that is ON has a record, and that last
      record is the zero-length one its toggle opened. */
  predicate Consistent(d: DeviceData) {
    d.status ==> d.records != [] && Last(d.records).offTime == Last(d.records).onTime
  }

  // ---------------------------------------------------------------------------
  // Objects

  class Device {
    var name: string
    var powerRating: real
    var status: bool
    var activationRecords: seq<ActivationRecord>

    /** A new device is OFF with an empty ledger. */
    constructor (n: string, p: real)
      ensures Data() == DeviceData(n, p, false, [])
    {
      name, powerRating, status, activationRecords := n, p, false, [];
    }

    function Data(): DeviceData
      reads this
    {
      DeviceData(name, powerRating, status, activationRecords)
    }

    method CalculateEnergyConsumed() returns (totalEnergy: real)
      ensures totalEnergy == Energy(powerRating, activationRecords)
    {
      totalEnergy := 0.0;
      for i := 0 to |activationRecords|
        invariant totalEnergy == Energy(powerRating, activationRecords[..i])
      {
        var record := activationRecords[i];
        var duration := (record.offTime - record.onTime) as real / 3600.0;
        totalEnergy := totalEnergy + (powerRating / 1000.0) * duration;
        assert activationRecords[..i + 1][..i] == activationRecords[..i];
      }
      assert activationRecords[..|activationRecords|] == activationRecords;
    }

    /** Seconds, accumulated in a floating-point total as the source does. */
    method TotalActiveTime() returns (totalTime: real)
      ensures totalTime == ActiveTime(activationRecords) as real
    {
      totalTime := 0.0;
      for i := 0 to |activationRecords|
        invariant totalTime == ActiveTime(activationRecords[..i]) as real
      {
        var record := activationRecords[i];
        totalTime := totalTime + (record.offTime - record.onTime) as real;
        assert activationRecords[..i + 1][..i] == activationRecords[..i];
      }
      assert activationRecords[..|activationRecords|] == activationRecords;
    }
  }

  function DevicesData(ds: seq<Device>): (r: seq<DeviceData>)
    reads ds
    ensures |r| == |ds| && forall j :: 0 <= j < |ds| ==> r[j] == ds[j].Data()
  {
    if ds == [] then [] else DevicesData(ds[..|ds| - 1]) + [Last(ds).Data()]
  }

  class Room {
    var name: string
    var devices: seq<Device>

    constructor (n: string)
      ensures name == n && devices == []
    {
      name, devices := n, [];
    }

    function Data(): RoomData
      reads this, devices
    {
      RoomData(name, DevicesData(devices))
    }
  }

  // ---------------------------------------------------------------------------
  // Manual toggle

  /** The device's ledger after the manual toggle at time `now`. Turning OFF writes
      into the last record, so an ON device must have one. */
  function Toggled(d: DeviceData, now: int): (e: DeviceData)
    requires d.status ==> d.records != []
    ensures e.name == d.name && e.powerRating == d.powerRating
    ensures e.status == !d.status
    ensures !d.status ==> e.records == d.records + [ActivationRecord(now, now)]
    ensures d.status ==>
      && |e.records| == |d.records|
      && (forall i :: 0 <= i < |d.records| - 1 ==> e.records[i] == d.records[i])
      && Last(e.records) == ActivationRecord(Last(d.records).onTime, now)
  {
    if d.status then
      var rs := d.records;
      d.(status := false, records := rs[|rs| - 1 := rs[|rs| - 1].(offTime := now)])
    else
      d.(status := true, records := d.records + [ActivationRecord(now, now)])
  }

  method Toggle(device: Device, now: int)
    requires device.status ==> device.activationRecords != []
    modifies device
    ensures device.Data() == Toggled(old(device.Data()), now)
  {
    if device.status {
      device.status := false;
      var last := |device.activationRecords| - 1;
      device.activationRecords := device.activationRecords[last := device.activationRecords[last].(offTime := now)];
    } else {
      device.status := true;
      var newRecord := ActivationRecord(now, now);
      device.activationRecords := device.activationRecords + [newRecord];
    }
  }

  /** Toggles keep the device consistent, so the next toggle OFF has a record to close. */
  lemma ToggledKeepsConsistent(d: DeviceData, now: int)
    requires Consistent(d)
    ensures Consistent(Toggled(d, now))
  {
  }

  /** Turning ON adds a record worth nothing: energy and active time are unchanged. */
  lemma ToggleOnAddsNothing(d: DeviceData, now: int)
    requires !d.status
    ensures ActiveTime(Toggled(d, now).records) == ActiveTime(d.records)
    ensures Energy(d.powerRating, Toggled(d, now).records) == Energy(d.powerRating, d.records)
  {
    AppendRecord(d.powerRating, d.records, ActivationRecord(now, now));
  }

  /** Turning OFF a consistent device credits the whole interval since it was turned ON. */
  lemma ToggleOffCreditsInterval(d: DeviceData, now: int)
    requires Consistent(d) && d.status
    ensures ActiveTime(Toggled(d, now).records) == ActiveTime(d.records) + (now - Last(d.records).onTime)
  {
    CloseLast(d.records, now);
  }

  /** The device after toggling at each of `times` in turn, from a consistent state. */
  function ToggleHistory(d: DeviceData, times: seq<int>): (e: DeviceData)
    requires Consistent(d)
    ensures Consistent(e)
  {
    if times == [] then d
    else
      var p := ToggleHistory(d, times[..|times| - 1]);
      ToggledKeepsConsistent(p, Last(times));
      Toggled(p, Last(times))
  }

  /** Toggles alone from a new device: record i runs from toggle 2i to toggle 2i+1,
      and when the number of toggles is odd the last record is still zero-length. */
  lemma {:induction false} ToggleHistoryShape(name: string, powerRating: real, times: seq<int>)
    ensures var e := ToggleHistory(DeviceData(name, powerRating, false, []), times);
      && e.name == name && e.powerRating == powerRating
      && e.status == (|times| % 2 == 1)
      && |e.records| == (|times| + 1) / 2
      && (forall i :: 0 <= i < |e.records| ==> e.records[i].onTime == times[2 * i])
      && (forall i :: 0 <= i < |e.records| ==>
            e.records[i].offTime == if 2 * i + 1 < |times| then times[2 * i + 1] else times[2 * i])
  {
    if times != [] {
      var init := times[..|times| - 1];
      ToggleHistoryShape(name, powerRating, init);
      assert forall i :: 0 <= i < |init| ==> init[i] == times[i];
    }
  }

  /** From an OFF device, the device is ON exactly after an odd number of toggles. */
  lemma {:induction false} ToggleParity(d: DeviceData, times: seq<int>)
    requires !d.status
    ensures ToggleHistory(d, times).status == (|times| % 2 == 1)
  {
    if times != [] {
      ToggleParity(d, times[..|times| - 1]);
    }
  }

  /** While a device is ON its running interval is not counted: the last toggle ON
      changes neither the active time nor the energy. */
  lemma RunningIntervalNotCounted(name: string, powerRating: real, before: seq<int>, t: int)
    requires |before| % 2 == 0
    ensures var fresh0 := DeviceData(name, powerRating, false, []);
      var e := ToggleHistory(fresh0, before + [t]);
      var p := ToggleHistory(fresh0, before);
      && e.status
      && ActiveTime(e.records) == ActiveTime(p.records)
      && Energy(powerRating, e.records) == Energy(powerRating, p.records)
  {
    var fresh0 := DeviceData(name, powerRating, false, []);
    ToggleParity(fresh0, before);
    var p := ToggleHistory(fresh0, before);
    assert (before + [t])[..|before|] == before;
    ToggleOnAddsNothing(p, t);
  }

  /** A running record cannot be told from a closed zero-length one: turning a device
      ON at t, or ON and OFF again at t, leaves the same records but a different status. */
  lemma ZeroLengthAmbiguity(name: string, powerRating: real, t: int)
    ensures var fresh0 := DeviceData(name, powerRating, false, []);
      var running := ToggleHistory(fresh0, [t]);
      var closed := ToggleHistory(fresh0, [t, t]);
      running.records == closed.records == [ActivationRecord(t, t)] && running.status && !closed.status
  {
    var fresh0 := DeviceData(name, powerRating, false, []);
    assert [t, t][..1] == [t];
    assert [t][..0] == [];
  }

  // ---------------------------------------------------------------------------
  // Timer schedule

  /** Net effect of a completed timer run: the device was turned ON at `onReading`
      with the planned OFF time, then turned OFF at `offReading`, which overwrote it. */
  function TimerRun(d: DeviceData, onReading: int, offReading: int): (e: DeviceData)
    ensures e.name == d.name && e.powerRating == d.powerRating
    ensures !e.status && Consistent(e)
    ensures e.records == d.records + [ActivationRecord(onReading, offReading)]
  {
    d.(status := false, records := d.records + [ActivationRecord(onReading, offReading)])
  }

  /** The timer mode of the earlier version: after validation it blocks until the ON
      time, turns the device ON, blocks until the OFF time and turns it OFF. The two
      clock readings taken after the waits are `onReading` and `offReading`. */
  method TimerMode(device: Device, onClock: Option<ClockTime>, offClock: Option<ClockTime>, todayMidnight: int,
                   onReading: int, offReading: int)
    returns (r: Result<ActivationRecord, ScheduleError>)
    modifies device
    ensures r == PlanSchedule(onClock, offClock, todayMidnight)
    ensures r.Err? ==> device.Data() == old(device.Data())
    ensures r.Ok? ==> device.Data() == TimerRun(old(device.Data()), onReading, offReading)
  {
    if onClock.None? {
      return Err(InvalidOnTimeFormat);
    }
    if offClock.None? {
      return Err(InvalidOffTimeFormat);
    }
    var onTime := Resolve(todayMidnight, onClock.value);
    var offTime := Resolve(todayMidnight, offClock.value);
    if offTime - onTime <= 0 {
      return Err(OffNotAfterOn);
    }
    device.status := true;
    var newRecord := ActivationRecord(onReading, offTime);
    device.activationRecords := device.activationRecords + [newRecord];
    device.status := false;
    var last := |device.activationRecords| - 1;
    device.activationRecords := device.activationRecords[last := device.activationRecords[last].(offTime := offReading)];
    r := Ok(ActivationRecord(onTime, offTime));
  }

  /** The clock readings of an exact clock started at `now`: the first wait ends at the
      planned ON time unless it has passed, the second at the planned OFF time unless
      that has passed too. */
  function IdealOnReading(plan: ActivationRecord, now: int): int {
    if plan.onTime - now > 0 then plan.onTime else now
  }

  function IdealOffReading(plan: ActivationRecord, now: int): int {
    var on := IdealOnReading(plan, now);
    if plan.offTime - on > 0 then plan.offTime else on
  }

  /** With an exact clock, a timer run credits the part of the planned window that
      lies after `now`, and nothing when the window is over. */
  lemma IdealTimerRunCredit(d: DeviceData, plan: ActivationRecord, now: int)
    requires plan.onTime < plan.offTime
    ensures var e := TimerRun(d, IdealOnReading(plan, now), IdealOffReading(plan, now));
      && ActiveTime(e.records) - ActiveTime(d.records) ==
         (if now < plan.onTime then plan.offTime - plan.onTime
          else if now < plan.offTime then plan.offTime - now
          else 0)
      && Last(e.records).onTime <= Last(e.records).offTime
  {
    AppendRecord(d.powerRating, d.records, ActivationRecord(IdealOnReading(plan, now), IdealOffReading(plan, now)));
  }
}
