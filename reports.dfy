/** Energy report and trends of the later program version (main.cpp). Each trend is
    a first-wins arg-max scan whose running maximum starts at -1, so a room or
    device with exactly zero consumption can still be reported. */
module Reports {
  import opened Common
  import opened Ledger

  /** Every device object reachable from the room list. */
  function AllDevices(rooms: seq<Room>): set<object>
    reads rooms
  {
    set r, d | r in rooms && d in r.devices :: d as object
  }

  /** The value of the room list, as the reports read it. */
  function Snapshot(rooms: seq<Room>): (s: seq<RoomData>)
    reads rooms, AllDevices(rooms)
    ensures |s| == |rooms| && forall i :: 0 <= i < |rooms| ==> s[i] == rooms[i].Data()
  {
    if rooms == [] then []
    else
      var last := Last(rooms);
      assert forall d | d in last.devices :: d in AllDevices(rooms);
      Snapshot(rooms[..|rooms| - 1]) + [last.Data()]
  }

  function DeviceEnergy(d: DeviceData, now: int): real {
    Energy(d.powerRating, d.records, now)
  }

  function DeviceEnergies(ds: seq<DeviceData>, now: int): seq<real> {
    seq(|ds|, j requires 0 <= j < |ds| => DeviceEnergy(ds[j], now))
  }

  /** A room consumes the sum of its devices' energies. */
  function RoomEnergy(r: RoomData, now: int): real {
    Sum(DeviceEnergies(r.devices, now))
  }

  function RoomEnergies(rooms: seq<RoomData>, now: int): seq<real> {
    seq(|rooms|, i requires 0 <= i < |rooms| => RoomEnergy(rooms[i], now))
  }

  function EntryEnergies(es: seq<Entry>, now: int): seq<real> {
    seq(|es|, i requires 0 <= i < |es| => DeviceEnergy(es[i].device, now))
  }

  function EntryActiveTimes(es: seq<Entry>, now: int): seq<real> {
    seq(|es|, i requires 0 <= i < |es| => ActiveTime(es[i].device.records, now) as real)
  }

  lemma EntryEnergiesConcat(a: seq<Entry>, b: seq<Entry>, now: int)
    ensures EntryEnergies(a + b, now) == EntryEnergies(a, now) + EntryEnergies(b, now)
  {
  }

  /** The entries of one room carry that room's device energies, in order. */
  lemma RoomEntryEnergies(r: RoomData, now: int)
    ensures EntryEnergies(RoomEntries(r), now) == DeviceEnergies(r.devices, now)
  {
  }

  /** The whole-home total does not depend on how devices are grouped into rooms:
      it is the sum over every device in room order. */
  lemma {:induction false} TotalIsSumOverDevices(rooms: seq<RoomData>, now: int)
    ensures Sum(RoomEnergies(rooms, now)) == Sum(EntryEnergies(Entries(rooms), now))
    decreases |rooms|
  {
    if rooms != [] {
      var init := rooms[..|rooms| - 1];
      var last := Last(rooms);
      TotalIsSumOverDevices(init, now);
      assert rooms == init + [last];
      RoomEnergiesSnoc(init, last, now);
      SumConcat(RoomEnergies(init, now), [RoomEnergy(last, now)]);
      EntryEnergiesConcat(Entries(init), RoomEntries(last), now);
      RoomEntryEnergies(last, now);
      SumConcat(EntryEnergies(Entries(init), now), DeviceEnergies(last.devices, now));
    }
  }

  /** A 1000 W device with one closed hour-long record used 1 kWh; as the only
      device of the only room the report charges 0.009. */
  lemma OneKilowattHour(t: int, now: int)
    requires t + 3600 != OPEN
    ensures var d := DeviceData("heater", 1000.0, false, [ActivationRecord(t, t + 3600)]);
      && DeviceEnergy(d, now) == 1.0
      && Sum(RoomEnergies([RoomData("hall", [d])], now)) * RATE_PER_UNIT == 0.009
  {
    var d := DeviceData("heater", 1000.0, false, [ActivationRecord(t, t + 3600)]);
    var r := ActivationRecord(t, t + 3600);
    AppendClosedRecord(1000.0, [], r, now);
    assert [] + [r] == d.records;
    assert DeviceEnergy(d, now) == 1.0;
    assert DeviceEnergies([d], now) == [1.0];
    assert [1.0][..0] == [];
    assert RoomEnergies([RoomData("hall", [d])], now) == [1.0];
  }

  // ---------------------------------------------------------------------------
  // Report

  lemma DeviceEnergiesSnoc(ds: seq<DeviceData>, d: DeviceData, now: int)
    ensures DeviceEnergies(ds + [d], now) == DeviceEnergies(ds, now) + [DeviceEnergy(d, now)]
  {
  }

  lemma RoomEnergiesSnoc(rs: seq<RoomData>, r: RoomData, now: int)
    ensures RoomEnergies(rs + [r], now) == RoomEnergies(rs, now) + [RoomEnergy(r, now)]
  {
  }

  /** The energy of one room, summed over its devices in order (the inner loop of
      both the report and the room trend). */
  method MeasureRoom(room: Room, ghost rd: RoomData, now: int) returns (roomEnergy: real)
    requires rd == room.Data()
    ensures roomEnergy == RoomEnergy(rd, now)
  {
    ghost var ds := rd.devices;
    roomEnergy := 0.0;
    for j := 0 to |room.devices|
      invariant roomEnergy == Sum(DeviceEnergies(ds[..j], now))
    {
      var energy := room.devices[j].CalculateEnergyConsumed(now);
      PrefixSnoc(ds, j);
      DeviceEnergiesSnoc(ds[..j], ds[j], now);
      roomEnergy := roomEnergy + energy;
    }
    assert ds[..|room.devices|] == ds;
  }

  method DisplayReports(rooms: seq<Room>, now: int) returns (roomEnergies: seq<real>, totalEnergy: real, totalCost: real)
    ensures roomEnergies == RoomEnergies(Snapshot(rooms), now)
    ensures totalEnergy == Sum(roomEnergies)
    ensures totalCost == totalEnergy * RATE_PER_UNIT
  {
    ghost var snap := Snapshot(rooms);
    totalEnergy := 0.0;
    roomEnergies := [];
    for i := 0 to |rooms|
      invariant roomEnergies == RoomEnergies(snap[..i], now)
      invariant totalEnergy == Sum(roomEnergies)
    {
      assert snap[i] == rooms[i].Data();
      var roomEnergy := MeasureRoom(rooms[i], snap[i], now);
      PrefixSnoc(snap, i);
      RoomEnergiesSnoc(snap[..i], snap[i], now);
      roomEnergies := roomEnergies + [roomEnergy];
      assert roomEnergies[..|roomEnergies| - 1] == RoomEnergies(snap[..i], now);
      totalEnergy := totalEnergy + roomEnergy;
    }
    assert snap[..|rooms|] == snap;
    totalCost := totalEnergy * RATE_PER_UNIT;
  }

  // ---------------------------------------------------------------------------
  // Trends

  /** Starting value of every running maximum. */
  const SENTINEL: real := -1.0

  /** A trend line: a winner with its value, or the "no data" message. */
  datatype TrendLine = NoData | Top(name: string, value: real)

  /** The loop of the room trend: the first room of highest energy, its energy and name. */
  method ScanRooms(rooms: seq<Room>, ghost snap: seq<RoomData>, now: int)
    returns (k: int, best: real, name: string)
    requires |snap| == |rooms| && forall i :: 0 <= i < |rooms| ==> snap[i] == rooms[i].Data()
    ensures var vs := RoomEnergies(snap, now);
      && IsFirstArgMax(vs, SENTINEL, k)
      && best == Best(vs, SENTINEL, k)
      && (k != -1 ==> name == snap[k].name)
  {
    ghost var vs := RoomEnergies(snap, now);
    name := "N/A";
    best := SENTINEL;
    k := -1;
    for i := 0 to |rooms|
      invariant IsFirstArgMax(vs[..i], SENTINEL, k)
      invariant best == Best(vs[..i], SENTINEL, k)
      invariant k != -1 ==> name == snap[k].name
    {
      var room := rooms[i];
      assert snap[i] == room.Data();
      var roomEnergy := MeasureRoom(room, snap[i], now);
      assert roomEnergy == vs[i];
      PrefixStep(vs, SENTINEL, i, k, best);
      if roomEnergy > best {
        best := roomEnergy;
        name := room.name;
        k := i;
      }
    }
    assert vs[..|rooms|] == vs;
  }

  /** Which room consumes the most energy: the first room of highest energy. */
  method TopRoom(rooms: seq<Room>, now: int) returns (k: int, line: TrendLine)
    ensures var vs := RoomEnergies(Snapshot(rooms), now);
      && IsFirstArgMax(vs, SENTINEL, k)
      && (k != -1 && vs[k] >= 0.0 ==> line == Top(rooms[k].name, vs[k]))
      && (k == -1 || vs[k] < 0.0 ==> line == NoData)
  {
    ghost var snap := Snapshot(rooms);
    var highestEnergy, highestEnergyRoom;
    k, highestEnergy, highestEnergyRoom := ScanRooms(rooms, snap, now);
    assert Snapshot(rooms) == snap;
    assert k != -1 ==> snap[k].name == rooms[k].name;
    if highestEnergy >= 0.0 {
      line := Top(highestEnergyRoom, highestEnergy);
    } else {
      line := NoData;
    }
  }

  lemma EntryValuesSnoc(es: seq<Entry>, e: Entry, now: int)
    ensures EntryEnergies(es + [e], now) == EntryEnergies(es, now) + [DeviceEnergy(e.device, now)]
    ensures EntryActiveTimes(es + [e], now) == EntryActiveTimes(es, now) + [ActiveTime(e.device.records, now) as real]
  {
  }

  /** What a finished scan reports: the running maximum is non-negative exactly when
      some value is, and then it is the winner's value under the winner's caption. */
  lemma ScanOutcome(vs: seq<real>, seen: seq<Entry>, k: int, best: real, caption: string)
    requires ScanState(vs, seen, SENTINEL, k, best, caption)
    ensures best >= 0.0 <==> k != -1 && vs[k] >= 0.0
    ensures k != -1 ==> best == vs[k] && caption == seen[k].caption
  {
  }

  /** The inner loop of the device-energy trend: carries the running maximum
      across the devices of one room. */
  method ScanRoomEnergy(room: Room, ghost rd: RoomData, now: int, ghost seen: seq<Entry>, scanned: int, k0: int, best0: real, caption0: string)
    returns (k: int, best: real, caption: string)
    requires rd == room.Data() && scanned == |seen|
    requires ScanState(EntryEnergies(seen, now), seen, SENTINEL, k0, best0, caption0)
    ensures var seen' := seen + RoomEntries(rd);
      ScanState(EntryEnergies(seen', now), seen', SENTINEL, k, best, caption)
  {
    ghost var entries := RoomEntries(rd);
    ghost var cur := seen;
    k, best, caption := k0, best0, caption0;
    for j := 0 to |room.devices|
      invariant cur == seen + entries[..j]
      invariant ScanState(EntryEnergies(cur, now), cur, SENTINEL, k, best, caption)
    {
      var device := room.devices[j];
      var deviceEnergy := device.CalculateEnergyConsumed(now);
      assert entries[j] == Entry(device.name + " in " + room.name, device.Data());
      ArgMaxStep(EntryEnergies(cur, now), SENTINEL, k, deviceEnergy);
      EntryValuesSnoc(cur, entries[j], now);
      if deviceEnergy > best {
        best := deviceEnergy;
        caption := device.name + " in " + room.name;
        k := scanned + j;
      }
      PrefixSnoc(entries, j);
      cur := cur + [entries[j]];
    }
    assert entries[..|room.devices|] == entries;
  }

  /** The inner loop of the active-time trend. */
  method ScanRoomActiveTime(room: Room, ghost rd: RoomData, now: int, ghost seen: seq<Entry>, scanned: int, k0: int, best0: real, caption0: string)
    returns (k: int, best: real, caption: string)
    requires rd == room.Data() && scanned == |seen|
    requires ScanState(EntryActiveTimes(seen, now), seen, SENTINEL, k0, best0, caption0)
    ensures var seen' := seen + RoomEntries(rd);
      ScanState(EntryActiveTimes(seen', now), seen', SENTINEL, k, best, caption)
  {
    ghost var entries := RoomEntries(rd);
    ghost var cur := seen;
    k, best, caption := k0, best0, caption0;
    for j := 0 to |room.devices|
      invariant cur == seen + entries[..j]
      invariant ScanState(EntryActiveTimes(cur, now), cur, SENTINEL, k, best, caption)
    {
      var device := room.devices[j];
      var activeTime := device.TotalActiveTime(now);
      assert entries[j] == Entry(device.name + " in " + room.name, device.Data());
      ArgMaxStep(EntryActiveTimes(cur, now), SENTINEL, k, activeTime);
      EntryValuesSnoc(cur, entries[j], now);
      if activeTime > best {
        best := activeTime;
        caption := device.name + " in " + room.name;
        k := scanned + j;
      }
      PrefixSnoc(entries, j);
      cur := cur + [entries[j]];
    }
    assert entries[..|room.devices|] == entries;
  }

  /** The outer loop of the device-energy trend: every device of every room, in order. */
  method ScanEnergies(rooms: seq<Room>, ghost snap: seq<RoomData>, now: int)
    returns (k: int, best: real, caption: string)
    requires snap == Snapshot(rooms)
    ensures var es := Entries(snap);
      ScanState(EntryEnergies(es, now), es, SENTINEL, k, best, caption)
  {
    ghost var seen: seq<Entry> := [];
    caption := "N/A";
    best := SENTINEL;
    k := -1;
    var scanned := 0;
    for i := 0 to |rooms|
      invariant seen == Entries(snap[..i]) && scanned == |seen|
      invariant ScanState(EntryEnergies(seen, now), seen, SENTINEL, k, best, caption)
    {
      var room := rooms[i];
      assert snap[i] == room.Data();
      k, best, caption := ScanRoomEnergy(room, snap[i], now, seen, scanned, k, best, caption);
      EntriesSnoc(snap, i);
      seen := seen + RoomEntries(snap[i]);
      scanned := scanned + |room.devices|;
    }
    assert snap[..|rooms|] == snap;
  }

  /** Which device consumes the most energy, over all rooms in order. */
  method TopDevice(rooms: seq<Room>, now: int) returns (k: int, line: TrendLine)
    ensures var es := Entries(Snapshot(rooms));
      var vs := EntryEnergies(es, now);
      && IsFirstArgMax(vs, SENTINEL, k)
      && line == (if k != -1 && vs[k] >= 0.0 then Top(es[k].caption, vs[k]) else NoData)
  {
    ghost var snap := Snapshot(rooms);
    var highestDeviceEnergy, highestEnergyDevice;
    k, highestDeviceEnergy, highestEnergyDevice := ScanEnergies(rooms, snap, now);
    assert Snapshot(rooms) == snap;
    ScanOutcome(EntryEnergies(Entries(snap), now), Entries(snap), k, highestDeviceEnergy, highestEnergyDevice);
    if highestDeviceEnergy >= 0.0 {
      line := Top(highestEnergyDevice, highestDeviceEnergy);
    } else {
      line := NoData;
    }
  }

  /** The outer loop of the active-time trend. */
  method ScanActiveTimes(rooms: seq<Room>, ghost snap: seq<RoomData>, now: int)
    returns (k: int, best: real, caption: string)
    requires snap == Snapshot(rooms)
    ensures var es := Entries(snap);
      ScanState(EntryActiveTimes(es, now), es, SENTINEL, k, best, caption)
  {
    ghost var seen: seq<Entry> := [];
    caption := "N/A";
    best := SENTINEL;
    k := -1;
    var scanned := 0;
    for i := 0 to |rooms|
      invariant seen == Entries(snap[..i]) && scanned == |seen|
      invariant ScanState(EntryActiveTimes(seen, now), seen, SENTINEL, k, best, caption)
    {
      var room := rooms[i];
      assert snap[i] == room.Data();
      k, best, caption := ScanRoomActiveTime(room, snap[i], now, seen, scanned, k, best, caption);
      EntriesSnoc(snap, i);
      seen := seen + RoomEntries(snap[i]);
      scanned := scanned + |room.devices|;
    }
    assert snap[..|rooms|] == snap;
  }

  /** Which device was active longest; the line shows its time in hours. */
  method LongestActive(rooms: seq<Room>, now: int) returns (k: int, line: TrendLine)
    ensures var es := Entries(Snapshot(rooms));
      var vs := EntryActiveTimes(es, now);
      && IsFirstArgMax(vs, SENTINEL, k)
      && line == (if k != -1 && vs[k] >= 0.0 then Top(es[k].caption, Hours(vs[k])) else NoData)
  {
    ghost var snap := Snapshot(rooms);
    var longestActiveTime, longestActiveDevice;
    k, longestActiveTime, longestActiveDevice := ScanActiveTimes(rooms, snap, now);
    assert Snapshot(rooms) == snap;
    ScanOutcome(EntryActiveTimes(Entries(snap), now), Entries(snap), k, longestActiveTime, longestActiveDevice);
    if longestActiveTime >= 0.0 {
      line := Top(longestActiveDevice, Hours(longestActiveTime));
    } else {
      line := NoData;
    }
  }

  /** With the -1 sentinel and no negative values, a winner is reported exactly when
      there is something to scan; in particular a sole zero-energy room wins. */
  lemma NoDataOnlyWhenNothingToScan(vs: seq<real>, k: int)
    requires IsFirstArgMax(vs, SENTINEL, k)
    requires forall i :: 0 <= i < |vs| ==> vs[i] >= 0.0
    ensures (k != -1 && vs[k] >= 0.0) <==> vs != []
  {
    if vs != [] {
      assert vs[0] >= 0.0 > SENTINEL;
    }
  }

  /** Corollary of `IsFirstArgMax`: on a tie the earlier room or device stays the
      winner. */
  lemma TieGoesToFirst(vs: seq<real>, k: int, i: int, j: int)
    requires IsFirstArgMax(vs, SENTINEL, k)
    requires 0 <= i < j < |vs| && vs[i] == vs[j] && SENTINEL < vs[j]
    requires forall m :: 0 <= m < |vs| ==> vs[m] <= vs[j]
    ensures k <= i
  {
  }

  /** A device whose values cannot be negative at `now`: a non-negative rating
      (adding a device refuses anything else) and a well-formed ledger. */
  predicate SoundDevice(d: DeviceData, now: int) {
    d.powerRating >= 0.0 && WellFormedAt(d.records, now)
  }

  predicate SoundRooms(rooms: seq<RoomData>, now: int) {
    forall i, j :: 0 <= i < |rooms| && 0 <= j < |rooms[i].devices| ==> SoundDevice(rooms[i].devices[j], now)
  }

  /** On sound rooms every room energy is non-negative. */
  lemma RoomEnergiesNonNegative(rooms: seq<RoomData>, now: int)
    requires SoundRooms(rooms, now)
    ensures forall i :: 0 <= i < |rooms| ==> RoomEnergies(rooms, now)[i] >= 0.0
  {
    forall i | 0 <= i < |rooms|
      ensures RoomEnergies(rooms, now)[i] >= 0.0
    {
      var ds := rooms[i].devices;
      forall j | 0 <= j < |ds|
        ensures DeviceEnergies(ds, now)[j] >= 0.0
      {
        WellFormedLedgerNonNegative(ds[j].powerRating, ds[j].records, now);
      }
      SumNonNegative(DeviceEnergies(ds, now));
    }
  }

  /** Every entry of the device trends is a device of sound rooms, so it is sound. */
  lemma {:induction false} EntriesSound(rooms: seq<RoomData>, now: int)
    requires SoundRooms(rooms, now)
    ensures forall i :: 0 <= i < |Entries(rooms)| ==> SoundDevice(Entries(rooms)[i].device, now)
    decreases |rooms|
  {
    if rooms != [] {
      var init := rooms[..|rooms| - 1];
      assert forall i :: 0 <= i < |init| ==> init[i] == rooms[i];
      EntriesSound(init, now);
      var es, last := Entries(init), RoomEntries(rooms[|rooms| - 1]);
      assert Entries(rooms) == es + last;
      assert forall i :: |es| <= i < |es + last| ==> (es + last)[i] == last[i - |es|];
    }
  }

  /** On sound rooms the premise of `NoDataOnlyWhenNothingToScan` holds for all three
      trends: the room trend says "no data" only when there are no rooms, and each
      device trend only when there are no devices. */
  lemma SoundTrendsReport(rooms: seq<RoomData>, now: int, kr: int, kd: int, ka: int)
    requires SoundRooms(rooms, now)
    requires IsFirstArgMax(RoomEnergies(rooms, now), SENTINEL, kr)
    requires IsFirstArgMax(EntryEnergies(Entries(rooms), now), SENTINEL, kd)
    requires IsFirstArgMax(EntryActiveTimes(Entries(rooms), now), SENTINEL, ka)
    ensures (kr != -1 && RoomEnergies(rooms, now)[kr] >= 0.0) <==> rooms != []
    ensures (kd != -1 && EntryEnergies(Entries(rooms), now)[kd] >= 0.0) <==> Entries(rooms) != []
    ensures (ka != -1 && EntryActiveTimes(Entries(rooms), now)[ka] >= 0.0) <==> Entries(rooms) != []
  {
    var es := Entries(rooms);
    RoomEnergiesNonNegative(rooms, now);
    NoDataOnlyWhenNothingToScan(RoomEnergies(rooms, now), kr);
    EntriesSound(rooms, now);
    forall i | 0 <= i < |es|
      ensures EntryEnergies(es, now)[i] >= 0.0 && EntryActiveTimes(es, now)[i] >= 0.0
    {
      WellFormedLedgerNonNegative(es[i].device.powerRating, es[i].device.records, now);
    }
    NoDataOnlyWhenNothingToScan(EntryEnergies(es, now), kd);
    NoDataOnlyWhenNothingToScan(EntryActiveTimes(es, now), ka);
  }
}
