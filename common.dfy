/** Definitions shared by both versions of the smart-home program: the shape of the
    ledger data (identical in both source files), the HH:MM schedule validation
    (identical in both timer modes), sums of energies and the first-wins arg-max
    that the trend reports use. */
module Common {

  datatype Option<T> = None | Some(value: T)

  datatype Result<T, E> = Ok(value: T) | Err(error: E)

  function Last<T>(s: seq<T>): T
    requires s != []
  {
    s[|s| - 1]
  }

  /** A prefix grows by one element at a time. */
  lemma PrefixSnoc<T>(s: seq<T>, i: nat)
    requires i < |s|
    ensures s[..i + 1] == s[..i] + [s[i]]
  {
  }

  /** One on/off interval of a device; timestamps are seconds since the epoch. */
  datatype ActivationRecord = ActivationRecord(onTime: int, offTime: int)

  /** The value of a Device object: what a report reads from it. */
  datatype DeviceData = DeviceData(name: string, powerRating: real, status: bool, records: seq<ActivationRecord>)

  /** The value of a Room object. */
  datatype RoomData = RoomData(name: string, devices: seq<DeviceData>)

  const SECONDS_PER_HOUR := 3600
  const SECONDS_PER_DAY := 86400

  /** Tariff of the energy report, in fils per kWh. */
  const RATE_PER_UNIT: real := 0.009

  // ---------------------------------------------------------------------------
  // Schedule times

  datatype Clock = Clock(hour: int, minute: int)

  /** A reading that the "%H:%M" parse accepts. */
  type ClockTime = c: Clock | 0 <= c.hour < 24 && 0 <= c.minute < 60 witness Clock(0, 0)

  /** Strict "earlier in the day" order on clock readings. */
  predicate Before(a: Clock, b: Clock) {
    a.hour < b.hour || (a.hour == b.hour && a.minute < b.minute)
  }

  /** The timestamp of `c` on the day that starts at `todayMidnight` (seconds set to 0). */
  function Resolve(todayMidnight: int, c: ClockTime): (t: int)
    ensures todayMidnight <= t < todayMidnight + SECONDS_PER_DAY
    ensures (t - todayMidnight) / SECONDS_PER_HOUR == c.hour
    ensures (t - todayMidnight) % SECONDS_PER_HOUR / 60 == c.minute
  {
    todayMidnight + c.hour * SECONDS_PER_HOUR + c.minute * 60
  }

  lemma ResolveOrder(todayMidnight: int, a: ClockTime, b: ClockTime)
    ensures Resolve(todayMidnight, a) < Resolve(todayMidnight, b) <==> Before(a, b)
  {
  }

  datatype ScheduleError = InvalidOnTimeFormat | InvalidOffTimeFormat | OffNotAfterOn

  /** Validation shared by both timer modes: the ON reading is checked first, then
      the OFF reading, then the resolved OFF time must be strictly after the ON time.
      On success the planned interval is returned. */
  function PlanSchedule(onClock: Option<ClockTime>, offClock: Option<ClockTime>, todayMidnight: int)
    : (r: Result<ActivationRecord, ScheduleError>)
    ensures onClock.None? ==> r == Err(InvalidOnTimeFormat)
    ensures onClock.Some? && offClock.None? ==> r == Err(InvalidOffTimeFormat)
    ensures onClock.Some? && offClock.Some? ==>
      (r.Ok? <==> Before(onClock.value, offClock.value)) &&
      (r.Err? ==> r.error == OffNotAfterOn)
    ensures r.Ok? ==>
      && r.value.onTime == Resolve(todayMidnight, onClock.value)
      && r.value.offTime == Resolve(todayMidnight, offClock.value)
      && 0 < r.value.offTime - r.value.onTime < SECONDS_PER_DAY
  {
    if onClock.None? then Err(InvalidOnTimeFormat)
    else if offClock.None? then Err(InvalidOffTimeFormat)
    else
      var onTime := Resolve(todayMidnight, onClock.value);
      var offTime := Resolve(todayMidnight, offClock.value);
      ResolveOrder(todayMidnight, onClock.value, offClock.value);
      if offTime - onTime <= 0 then Err(OffNotAfterOn)
      else Ok(ActivationRecord(onTime, offTime))
  }

  // ---------------------------------------------------------------------------
  // Sums

  function Sum(vs: seq<real>): real
  {
    if vs == [] then 0.0 else Sum(vs[..|vs| - 1]) + vs[|vs| - 1]
  }

  lemma {:induction false} SumConcat(a: seq<real>, b: seq<real>)
    ensures Sum(a + b) == Sum(a) + Sum(b)
    decreases |b|
  {
    if b == [] {
      assert a + b == a;
    } else {
      var b' := b[..|b| - 1];
      assert (a + b)[..|a + b| - 1] == a + b';
      SumConcat(a, b');
    }
  }

  /** A sum of non-negative values is non-negative. */
  lemma {:induction false} SumNonNegative(vs: seq<real>)
    requires forall i :: 0 <= i < |vs| ==> vs[i] >= 0.0
    ensures Sum(vs) >= 0.0
    decreases |vs|
  {
    if vs != [] {
      SumNonNegative(vs[..|vs| - 1]);
    }
  }

  // ---------------------------------------------------------------------------
  // Trends

  /** `k` is what a scan `best := floor; for each i: if vs[i] > best { best, k := vs[i], i }`
      ends with, starting from k == -1: the first index whose value is strictly above
      `floor` and not below any other value, or -1 when no value exceeds `floor`. */
  predicate IsFirstArgMax(vs: seq<real>, floor: real, k: int)
  {
    if k == -1 then
      forall i :: 0 <= i < |vs| ==> vs[i] <= floor
    else
      && 0 <= k < |vs|
      && floor < vs[k]
      && (forall i :: 0 <= i < k ==> vs[i] < vs[k])
      && (forall i :: k < i < |vs| ==> vs[i] <= vs[k])
  }

  /** The running maximum of the scan: the sentinel until something beats it. */
  function Best(vs: seq<real>, floor: real, k: int): real
    requires IsFirstArgMax(vs, floor, k)
  {
    if k == -1 then floor else vs[k]
  }

  /** One step of the scan: a strictly greater value takes over, anything else
      (including a tie) leaves the earlier winner in place. */
  lemma ArgMaxStep(vs: seq<real>, floor: real, k: int, v: real)
    requires IsFirstArgMax(vs, floor, k)
    ensures v > Best(vs, floor, k) ==> IsFirstArgMax(vs + [v], floor, |vs|)
    ensures v <= Best(vs, floor, k) ==> IsFirstArgMax(vs + [v], floor, k)
  {
    var ws := vs + [v];
    assert forall i :: 0 <= i < |vs| ==> ws[i] == vs[i];
  }

  /** `ArgMaxStep` on the prefixes of a fixed list: scanning `vs[i]` after `vs[..i]`. */
  lemma PrefixStep(vs: seq<real>, floor: real, i: nat, k: int, best: real)
    requires i < |vs| && IsFirstArgMax(vs[..i], floor, k) && best == Best(vs[..i], floor, k)
    ensures vs[i] > best ==> IsFirstArgMax(vs[..i + 1], floor, i) && vs[i] == Best(vs[..i + 1], floor, i)
    ensures vs[i] <= best ==> IsFirstArgMax(vs[..i + 1], floor, k) && best == Best(vs[..i + 1], floor, k)
  {
    PrefixSnoc(vs, i);
    ArgMaxStep(vs[..i], floor, k, vs[i]);
  }

  /** The scan's outcome is determined by the values: two results are the same. */
  lemma FirstArgMaxUnique(vs: seq<real>, floor: real, k1: int, k2: int)
    requires IsFirstArgMax(vs, floor, k1) && IsFirstArgMax(vs, floor, k2)
    ensures k1 == k2
  {
  }

  /** The state of a device scan after the entries `seen`, whose values are `vs`:
      the winner's index, the running maximum and the winner's caption. */
  predicate ScanState(vs: seq<real>, seen: seq<Entry>, floor: real, k: int, best: real, caption: string)
  {
    |vs| == |seen| && IsFirstArgMax(vs, floor, k) && best == Best(vs, floor, k)
    && (k != -1 ==> caption == seen[k].caption)
  }

  /** Flattened (room, device) order of the device trends, with the label
      "<device> in <room>" that the report prints. */
  datatype Entry = Entry(caption: string, device: DeviceData)

  function RoomEntries(r: RoomData): seq<Entry>
  {
    seq(|r.devices|, j requires 0 <= j < |r.devices| => Entry(r.devices[j].name + " in " + r.name, r.devices[j]))
  }

  function Entries(rooms: seq<RoomData>): seq<Entry>
  {
    if rooms == [] then [] else Entries(rooms[..|rooms| - 1]) + RoomEntries(rooms[|rooms| - 1])
  }

  lemma EntriesSnoc(rooms: seq<RoomData>, i: nat)
    requires i < |rooms|
    ensures Entries(rooms[..i + 1]) == Entries(rooms[..i]) + RoomEntries(rooms[i])
  {
    assert rooms[..i + 1][..i] == rooms[..i];
  }

  /** Seconds shown as hours in the active-time trend. */
  function Hours(seconds: real): real {
    seconds / 3600.0
  }
}
