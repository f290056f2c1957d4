/** Energy report and trends of the earlier program version (main.c++). Every running
    maximum starts at 0 and every winner's name at the empty string, and the trend
    lines are printed whatever the scan found. */
module EarlyReports {
  import opened Common
  import opened EarlyLedger
  import Reports

  /** Every device object reachable from the room list. */
  function AllDevices(rooms: seq<Room>): set<object>
    reads rooms
  {
    set r, d | r in rooms && d in r.devices :: d as object
  }

  /** The value of the room list, as the reports read it. */
  function Snapshot(rooms: seq<Room>): (s: seq<RoomData>)
    reads rooms, AllDevices(rooms)
    ensures |s| == |rooms| && forall i :: 0 <= i < |rooms| ==> s[i] == rooms[i].Data()
  {
    if rooms == [] then []
    else
      var last := Last(rooms);
      assert forall d | d in last.devices :: d in AllDevices(rooms);
      Snapshot(rooms[..|rooms| - 1]) + [last.Data()]
  }

  function DeviceEnergy(d: DeviceData): real {
    Energy(d.powerRating, d.records)
  }

  function DeviceEnergies(ds: seq<DeviceData>): seq<real> {
    seq(|ds|, j requires 0 <= j < |ds| => DeviceEnergy(ds[j]))
  }

  /** A room consumes the sum of its devices' energies. */
  function RoomEnergy(r: RoomData): real {
    Sum(DeviceEnergies(r.devices))
  }

  function RoomEnergies(rooms: seq<RoomData>): seq<real> {
    seq(|rooms|, i requires 0 <= i < |rooms| => RoomEnergy(rooms[i]))
  }

  function EntryEnergies(es: seq<Entry>): seq<real> {
    seq(|es|, i requires 0 <= i < |es| => DeviceEnergy(es[i].device))
  }

  function EntryActiveTimes(es: seq<Entry>): seq<real> {
    seq(|es|, i requires 0 <= i < |es| => ActiveTime(es[i].device.records) as real)
  }

  lemma DeviceEnergiesSnoc(ds: seq<DeviceData>, d: DeviceData)
    ensures DeviceEnergies(ds + [d]) == DeviceEnergies(ds) + [DeviceEnergy(d)]
  {
  }

  lemma RoomEnergiesSnoc(rs: seq<RoomData>, r: RoomData)
    ensures RoomEnergies(rs + [r]) == RoomEnergies(rs) + [RoomEnergy(r)]
  {
  }

  lemma EntryEnergiesConcat(a: seq<Entry>, b: seq<Entry>)
    ensures EntryEnergies(a + b) == EntryEnergies(a) + EntryEnergies(b)
  {
  }

  /** The entries of one room carry that room's device energies, in order. */
  lemma RoomEntryEnergies(r: RoomData)
    ensures EntryEnergies(RoomEntries(r)) == DeviceEnergies(r.devices)
  {
  }

  /** The whole-home total is the sum over every device in room order. */
  lemma {:induction false} TotalIsSumOverDevices(rooms: seq<RoomData>)
    ensures Sum(RoomEnergies(rooms)) == Sum(EntryEnergies(Entries(rooms)))
    decreases |rooms|
  {
    if rooms != [] {
      var init := rooms[..|rooms| - 1];
      var last := Last(rooms);
      TotalIsSumOverDevices(init);
      assert rooms == init + [last];
      RoomEnergiesSnoc(init, last);
      SumConcat(RoomEnergies(init), [RoomEnergy(last)]);
      EntryEnergiesConcat(Entries(init), RoomEntries(last));
      RoomEntryEnergies(last);
      SumConcat(EntryEnergies(Entries(init)), DeviceEnergies(last.devices));
    }
  }

  // ---------------------------------------------------------------------------
  // Report

  /** The energy of one room, summed over its devices in order. */
  method MeasureRoom(room: Room, ghost rd: RoomData) returns (roomEnergy: real)
    requires rd == room.Data()
    ensures roomEnergy == RoomEnergy(rd)
  {
    ghost var ds := rd.devices;
    roomEnergy := 0.0;
    for j := 0 to |room.devices|
      invariant roomEnergy == Sum(DeviceEnergies(ds[..j]))
    {
      var energy := room.devices[j].CalculateEnergyConsumed();
      PrefixSnoc(ds, j);
      DeviceEnergiesSnoc(ds[..j], ds[j]);
      roomEnergy := roomEnergy + energy;
    }
    assert ds[..|room.devices|] == ds;
  }

  method DisplayReports(rooms: seq<Room>) returns (roomEnergies: seq<real>, totalEnergy: real, totalCost: real)
    ensures roomEnergies == RoomEnergies(Snapshot(rooms))
    ensures totalEnergy == Sum(roomEnergies)
    ensures totalCost == totalEnergy * RATE_PER_UNIT
  {
    ghost var snap := Snapshot(rooms);
    totalEnergy := 0.0;
    roomEnergies := [];
    for i := 0 to |rooms|
      invariant roomEnergies == RoomEnergies(snap[..i])
      invariant totalEnergy == Sum(roomEnergies)
    {
      assert snap[i] == rooms[i].Data();
      var roomEnergy := MeasureRoom(rooms[i], snap[i]);
      PrefixSnoc(snap, i);
      RoomEnergiesSnoc(snap[..i], snap[i]);
      roomEnergies := roomEnergies + [roomEnergy];
      assert roomEnergies[..|roomEnergies| - 1] == RoomEnergies(snap[..i]);
      totalEnergy := totalEnergy + roomEnergy;
    }
    assert snap[..|rooms|] == snap;
    totalCost := totalEnergy * RATE_PER_UNIT;
  }

  // ---------------------------------------------------------------------------
  // Trends

  /** Starting value of every running maximum. */
  const FLOOR: real := 0.0

  /** The room trend: the first room of highest energy, if any beats 0, with its
      energy; otherwise the empty name and 0. */
  method ScanRooms(rooms: seq<Room>, ghost snap: seq<RoomData>)
    returns (k: int, highestEnergy: real, highestEnergyRoom: string)
    requires |snap| == |rooms| && forall i :: 0 <= i < |rooms| ==> snap[i] == rooms[i].Data()
    ensures var vs := RoomEnergies(snap);
      && IsFirstArgMax(vs, FLOOR, k)
      && highestEnergy == Best(vs, FLOOR, k)
      && highestEnergyRoom == (if k == -1 then "" else snap[k].name)
  {
    ghost var vs := RoomEnergies(snap);
    highestEnergyRoom := "";
    highestEnergy := FLOOR;
    k := -1;
    for i := 0 to |rooms|
      invariant IsFirstArgMax(vs[..i], FLOOR, k)
      invariant highestEnergy == Best(vs[..i], FLOOR, k)
      invariant k == -1 ==> highestEnergyRoom == ""
      invariant k != -1 ==> highestEnergyRoom == snap[k].name
    {
      var room := rooms[i];
      assert snap[i] == room.Data();
      var roomEnergy := MeasureRoom(room, snap[i]);
      PrefixStep(vs, FLOOR, i, k, highestEnergy);
      if roomEnergy > highestEnergy {
        highestEnergy := roomEnergy;
        highestEnergyRoom := room.name;
        k := i;
      }
    }
    assert vs[..|rooms|] == vs;
  }

  method TopRoom(rooms: seq<Room>) returns (k: int, highestEnergy: real, highestEnergyRoom: string)
    ensures var vs := RoomEnergies(Snapshot(rooms));
      && IsFirstArgMax(vs, FLOOR, k)
      && highestEnergy == (if k == -1 then 0.0 else vs[k])
      && highestEnergyRoom == (if k == -1 then "" else rooms[k].name)
  {
    ghost var snap := Snapshot(rooms);
    k, highestEnergy, highestEnergyRoom := ScanRooms(rooms, snap);
    assert Snapshot(rooms) == snap;
    assert k != -1 ==> snap[k].name == rooms[k].name;
  }

  lemma EntryValuesSnoc(es: seq<Entry>, e: Entry)
    ensures EntryEnergies(es + [e]) == EntryEnergies(es) + [DeviceEnergy(e.device)]
    ensures EntryActiveTimes(es + [e]) == EntryActiveTimes(es) + [ActiveTime(e.device.records) as real]
  {
  }

  /** The state of a device scan of this version: the common scan state, with the
      empty caption while nothing has beaten 0. */
  predicate EarlyScanState(vs: seq<real>, seen: seq<Entry>, k: int, best: real, caption: string)
  {
    ScanState(vs, seen, FLOOR, k, best, caption) && (k == -1 ==> caption == "")
  }

  /** The inner loop of the device-energy trend over one room. */
  method ScanRoomEnergy(room: Room, ghost rd: RoomData, ghost seen: seq<Entry>, scanned: int, k0: int, best0: real, caption0: string)
    returns (k: int, best: real, caption: string)
    requires rd == room.Data() && scanned == |seen|
    requires EarlyScanState(EntryEnergies(seen), seen, k0, best0, caption0)
    ensures var seen' := seen + RoomEntries(rd);
      EarlyScanState(EntryEnergies(seen'), seen', k, best, caption)
  {
    ghost var entries := RoomEntries(rd);
    ghost var cur := seen;
    k, best, caption := k0, best0, caption0;
    for j := 0 to |room.devices|
      invariant cur == seen + entries[..j]
      invariant EarlyScanState(EntryEnergies(cur), cur, k, best, caption)
    {
      var device := room.devices[j];
      var deviceEnergy := device.CalculateEnergyConsumed();
      assert entries[j] == Entry(device.name + " in " + room.name, device.Data());
      ArgMaxStep(EntryEnergies(cur), FLOOR, k, deviceEnergy);
      EntryValuesSnoc(cur, entries[j]);
      if deviceEnergy > best {
        best := deviceEnergy;
        caption := device.name + " in " + room.name;
        k := scanned + j;
      }
      PrefixSnoc(entries, j);
      cur := cur + [entries[j]];
    }
    assert entries[..|room.devices|] == entries;
  }

  /** The inner loop of the active-time trend over one room. */
  method ScanRoomActiveTime(room: Room, ghost rd: RoomData, ghost seen: seq<Entry>, scanned: int, k0: int, best0: real, caption0: string)
    returns (k: int, best: real, caption: string)
    requires rd == room.Data() && scanned == |seen|
    requires EarlyScanState(EntryActiveTimes(seen), seen, k0, best0, caption0)
    ensures var seen' := seen + RoomEntries(rd);
      EarlyScanState(EntryActiveTimes(seen'), seen', k, best, caption)
  {
    ghost var entries := RoomEntries(rd);
    ghost var cur := seen;
    k, best, caption := k0, best0, caption0;
    for j := 0 to |room.devices|
      invariant cur == seen + entries[..j]
      invariant EarlyScanState(EntryActiveTimes(cur), cur, k, best, caption)
    {
      var device := room.devices[j];
      var activeTime := device.TotalActiveTime();
      assert entries[j] == Entry(device.name + " in " + room.name, device.Data());
      ArgMaxStep(EntryActiveTimes(cur), FLOOR, k, activeTime);
      EntryValuesSnoc(cur, entries[j]);
      if activeTime > best {
        best := activeTime;
        caption := device.name + " in " + room.name;
        k := scanned + j;
      }
      PrefixSnoc(entries, j);
      cur := cur + [entries[j]];
    }
    assert entries[..|room.devices|] == entries;
  }

  /** The outer loop of the device-energy trend. */
  method ScanEnergies(rooms: seq<Room>, ghost snap: seq<RoomData>)
    returns (k: int, best: real, caption: string)
    requires snap == Snapshot(rooms)
    ensures var es := Entries(snap);
      EarlyScanState(EntryEnergies(es), es, k, best, caption)
  {
    ghost var seen: seq<Entry> := [];
    caption := "";
    best := FLOOR;
    k := -1;
    var scanned := 0;
    for i := 0 to |rooms|
      invariant seen == Entries(snap[..i]) && scanned == |seen|
      invariant EarlyScanState(EntryEnergies(seen), seen, k, best, caption)
    {
      var room := rooms[i];
      assert snap[i] == room.Data();
      k, best, caption := ScanRoomEnergy(room, snap[i], seen, scanned, k, best, caption);
      EntriesSnoc(snap, i);
      seen := seen + RoomEntries(snap[i]);
      scanned := scanned + |room.devices|;
    }
    assert snap[..|rooms|] == snap;
  }

  /** Which device consumes the most energy: the first device above 0 and not below
      any other, with its energy; otherwise the empty caption and 0. */
  method TopDevice(rooms: seq<Room>) returns (k: int, highestDeviceEnergy: real, highestEnergyDevice: string)
    ensures var es := Entries(Snapshot(rooms));
      var vs := EntryEnergies(es);
      && IsFirstArgMax(vs, FLOOR, k)
      && highestDeviceEnergy == (if k == -1 then 0.0 else vs[k])
      && highestEnergyDevice == (if k == -1 then "" else es[k].caption)
  {
    ghost var snap := Snapshot(rooms);
    k, highestDeviceEnergy, highestEnergyDevice := ScanEnergies(rooms, snap);
    assert Snapshot(rooms) == snap;
  }

  /** The outer loop of the active-time trend. */
  method ScanActiveTimes(rooms: seq<Room>, ghost snap: seq<RoomData>)
    returns (k: int, best: real, caption: string)
    requires snap == Snapshot(rooms)
    ensures var es := Entries(snap);
      EarlyScanState(EntryActiveTimes(es), es, k, best, caption)
  {
    ghost var seen: seq<Entry> := [];
    caption := "";
    best := FLOOR;
    k := -1;
    var scanned := 0;
    for i := 0 to |rooms|
      invariant seen == Entries(snap[..i]) && scanned == |seen|
      invariant EarlyScanState(EntryActiveTimes(seen), seen, k, best, caption)
    {
      var room := rooms[i];
      assert snap[i] == room.Data();
      k, best, caption := ScanRoomActiveTime(room, snap[i], seen, scanned, k, best, caption);
      EntriesSnoc(snap, i);
      seen := seen + RoomEntries(snap[i]);
      scanned := scanned + |room.devices|;
    }
    assert snap[..|rooms|] == snap;
  }

  /** Which device was active longest; the value is shown in hours. */
  method LongestActive(rooms: seq<Room>) returns (k: int, hours: real, longestActiveDevice: string)
    ensures var es := Entries(Snapshot(rooms));
      var vs := EntryActiveTimes(es);
      && IsFirstArgMax(vs, FLOOR, k)
      && (k == -1 ==> hours == 0.0 && longestActiveDevice == "")
      && (k != -1 ==> hours == Hours(vs[k]) && longestActiveDevice == es[k].caption)
  {
    ghost var snap := Snapshot(rooms);
    var longestActiveTime;
    k, longestActiveTime, longestActiveDevice := ScanActiveTimes(rooms, snap);
    assert Snapshot(rooms) == snap;
    hours := Hours(longestActiveTime);
  }

  // ---------------------------------------------------------------------------
  // The 0 starting value

  /** Corollary of `IsFirstArgMax` with the 0 floor: a room, or device, whose
      consumption is exactly 0 never wins, so when nothing has consumed anything yet
      the trend names nobody, however many rooms exist. */
  lemma ZeroNeverWins(vs: seq<real>, k: int)
    requires IsFirstArgMax(vs, FLOOR, k)
    requires forall i :: 0 <= i < |vs| ==> vs[i] == 0.0
    ensures k == -1
  {
  }

  /** A single room with one idle device: this version names no room, while the
      later version's -1 start names that room. */
  lemma IdleRoomUnnamed(name: string, deviceName: string, powerRating: real, k: int, now: int, k': int)
    requires var snap := [RoomData(name, [DeviceData(deviceName, powerRating, false, [])])];
      IsFirstArgMax(RoomEnergies(snap), FLOOR, k)
      && IsFirstArgMax(Reports.RoomEnergies(snap, now), Reports.SENTINEL, k')
    ensures k == -1 && k' == 0
  {
    var d := DeviceData(deviceName, powerRating, false, []);
    var snap := [RoomData(name, [d])];
    assert [0.0][..0] == [];
    assert Sum([0.0]) == 0.0;
    assert DeviceEnergies([d]) == [0.0];
    assert RoomEnergies(snap) == [0.0];
    assert Reports.DeviceEnergies([d], now) == [0.0];
    assert Reports.RoomEnergies(snap, now) == [0.0];
  }
}
