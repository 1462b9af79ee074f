/**
 What pkg/providers/instancetype/types.go takes off an instance type's capacity: the CPU and memory kept for the
 kubelet and the eviction thresholds. Quantities are integers, percentages exact rationals.
 */
module Reservations {
  import opened Options

  type Resources = map<string, int>

  const CPU := "cpu"
  const MEMORY := "memory"
  const STORAGE := "ephemeral-storage"
  const MI: int := 1024 * 1024

  // ---------------------------------------------------------------- kube-reserved

  /** A range of milli-CPUs of which `num` in `den` are reserved. */
  datatype Band = Band(start: int, end: int, num: int, den: int)

  /** 6% of the first core, 1% of the second, 0.5% of the next two, 0.25% of the rest. */
  const BANDS: seq<Band> :=
    [Band(0, 1000, 6, 100), Band(1000, 2000, 1, 100), Band(2000, 4000, 1, 200), Band(4000, 0x8000_0000, 1, 400)]

  ghost predicate BandSound(b: Band) {
    0 <= b.start < b.end && 0 < b.num && 0 < b.den
  }

  /** What one band reserves, rounded down. */
  function Share(b: Band, milli: int): int
    requires BandSound(b)
  {
    if milli < b.start then 0 else (if milli < b.end then milli - b.start else b.end - b.start) * b.num / b.den
  }

  function Shares(bands: seq<Band>, milli: int): int
    requires forall b :: b in bands ==> BandSound(b)
  {
    if bands == [] then 0 else Shares(bands[..|bands| - 1], milli) + Share(bands[|bands| - 1], milli)
  }

  function FixedReserved(pods: int): Resources {
    map[MEMORY := (11 * pods + 255) * MI, STORAGE := 1024 * MI]
  }

  /** Configured values first; 11Mi a pod and 255Mi of memory, 1Gi of storage, and the CPU of the four bands. */
  method KubeReserved(milli: int, pods: int, overrides: Resources) returns (reserved: Resources)
    ensures forall k :: k in reserved <==>
      k in overrides || k == "memory" || k == "ephemeral-storage" || (k == "cpu" && milli >= 0)
    ensures forall k :: k in reserved ==>
      (reserved[k] == if k in overrides then overrides[k]
                      else if k == "memory" then 11 * 1024 * 1024 * pods + 255 * 1024 * 1024
                      else if k == "ephemeral-storage" then 1024 * 1024 * 1024
                      else Shares(BANDS, milli))
    ensures reserved == FixedReserved(pods) + (if milli < 0 then map[] else map[CPU := Shares(BANDS, milli)]) + overrides
  {
    reserved := FixedReserved(pods);
    for i := 0 to |BANDS|
      invariant forall b :: b in BANDS ==> BandSound(b)
      invariant reserved == FixedReserved(pods) + (if i == 0 || milli < 0 then map[] else map[CPU := Shares(BANDS[..i], milli)])
    {
      assert BANDS[..i + 1][..i] == BANDS[..i];
      var b := BANDS[i];
      if milli < b.start { continue; }
      var r := if milli < b.end then milli - b.start else b.end - b.start;
      var cpu := if CPU in reserved then reserved[CPU] else 0;
      reserved := reserved[CPU := cpu + r * b.num / b.den];
    }
    assert BANDS[..|BANDS|] == BANDS;
    reserved := reserved + overrides;
  }

  lemma FourShares(milli: int)
    ensures forall b :: b in BANDS ==> BandSound(b)
    ensures Shares(BANDS, milli)
         == Share(BANDS[0], milli) + Share(BANDS[1], milli) + Share(BANDS[2], milli) + Share(BANDS[3], milli)
  {
    assert BANDS[..3][..2] == BANDS[..2] && BANDS[..2][..1] == BANDS[..1] && BANDS[..1][..0] == [];
    assert Shares(BANDS[..1], milli) == Share(BANDS[0], milli);
    assert Shares(BANDS[..2], milli) == Share(BANDS[0], milli) + Share(BANDS[1], milli);
    assert Shares(BANDS[..3], milli) == Share(BANDS[0], milli) + Share(BANDS[1], milli) + Share(BANDS[2], milli);
  }

  /** More CPU never reserves less. */
  lemma CpuMonotone(a: int, b: int)
    requires a <= b
    ensures forall band :: band in BANDS ==> BandSound(band)
    ensures Shares(BANDS, a) <= Shares(BANDS, b)
  {
    FourShares(a);
    FourShares(b);
  }

  /** The reservation is at most 6% of the CPU, and below it exactly when there is any. */
  lemma CpuBelowCapacity(milli: nat)
    ensures forall b :: b in BANDS ==> BandSound(b)
    ensures 0 <= 100 * Shares(BANDS, milli) <= 6 * milli
    ensures Shares(BANDS, milli) < milli <==> milli > 0
  {
    FourShares(milli);
  }

  ghost function Stretch(x: int, low: int, high: int): int {
    if x < low then 0 else if x < high then x - low else high - low
  }

  /** The reservation without rounding: a rate for each stretch of the CPU. */
  ghost function ExactReservation(milli: int): real {
    Stretch(milli, 0, 1000) as real * 0.06 + Stretch(milli, 1000, 2000) as real * 0.01
      + Stretch(milli, 2000, 4000) as real * 0.005 + Stretch(milli, 4000, 0x8000_0000) as real * 0.0025
  }

  lemma FloorOfRate(n: int)
    ensures (n as real * 0.01).Floor == n / 100
    ensures (n as real * 0.005).Floor == n / 200
    ensures (n as real * 0.0025).Floor == n / 400
  {}

  /** The reservation is the rate for each stretch rounded down, which loses less than a milli-CPU a stretch. */
  lemma CpuIsRoundedExact(milli: int)
    ensures forall b :: b in BANDS ==> BandSound(b)
    ensures Shares(BANDS, milli)
         == (Stretch(milli, 0, 1000) as real * 0.06).Floor + (Stretch(milli, 1000, 2000) as real * 0.01).Floor
            + (Stretch(milli, 2000, 4000) as real * 0.005).Floor + (Stretch(milli, 4000, 0x8000_0000) as real * 0.0025).Floor
    ensures Shares(BANDS, milli) as real <= ExactReservation(milli) < Shares(BANDS, milli) as real + 4.0
  {
    FourShares(milli);
    assert forall b :: b in BANDS ==> Share(b, milli) == Stretch(milli, b.start, b.end) * b.num / b.den;
    FloorOfRate(6 * Stretch(milli, 0, 1000));
    FloorOfRate(Stretch(milli, 1000, 2000));
    FloorOfRate(Stretch(milli, 2000, 4000));
    FloorOfRate(Stretch(milli, 4000, 0x8000_0000));
    hide Stretch;
  }

  // ---------------------------------------------------------------- pods

  /** At most the configured or default number, and at most so many per core when a positive number is given. */
  function Pods(vcpus: int, maxPods: Option<int>, podsPerCore: Option<int>): (pods: int)
    ensures maxPods.None? ==> pods <= 110
    ensures maxPods.Some? ==> pods <= maxPods.value
    ensures podsPerCore.Some? && podsPerCore.value > 0 ==> pods <= podsPerCore.value * vcpus
    ensures pods == 110 || maxPods == Some(pods) || (podsPerCore.Some? && podsPerCore.value > 0 && pods == podsPerCore.value * vcpus)
  {
    var count := match maxPods case Some(n) => n case None => 110;
    if podsPerCore.Some? && podsPerCore.value > 0 && podsPerCore.value * vcpus < count then podsPerCore.value * vcpus
    else count
  }

  // ---------------------------------------------------------------- eviction thresholds

  /** A signal's value, parsed: a percentage of the capacity or a quantity. */
  datatype Signal = Percent(p: real) | Quantity(q: int)

  type Signals = map<string, Signal>

  const MEMORY_AVAILABLE := "memory.available"
  const NODEFS_AVAILABLE := "nodefs.available"
  const IMAGEFS_AVAILABLE := "imagefs.available"

  function Ceil(x: real): (r: int)
    ensures r as real - 1.0 < x <= r as real
  {
    -((-x).Floor)
  }

  /** A percentage of 100 disables the threshold. */
  function Threshold(capacity: int, signal: Signal): int {
    match signal
    case Percent(p) => if p == 100.0 then 0 else Ceil(capacity as real / 100.0 * p)
    case Quantity(q) => q
  }

  /** A percentage other than 100 gives the least integer that is at least that part of the capacity, 100 gives 0. */
  lemma ThresholdExactly(capacity: int, p: real, t: int)
    ensures Threshold(capacity, Percent(100.0)) == 0
    ensures p != 100.0 ==> (Threshold(capacity, Percent(p)) <= t <==> capacity as real * p <= 100.0 * t as real)
    ensures Threshold(capacity, Quantity(t)) == t
  {
    var x := capacity as real / 100.0 * p;
    PartOf(capacity as real, p);
    assert Ceil(x) <= t <==> x <= t as real;
  }

  lemma PartOf(capacity: real, p: real)
    ensures 100.0 * (capacity / 100.0 * p) == capacity * p
  {}

  ghost predicate Within(capacity: nat, signal: Signal) {
    match signal
    case Percent(p) => p <= 100.0 || capacity == 0
    case Quantity(q) => q <= capacity
  }

  /** A threshold stays within the capacity unless its percentage is above 100 or its quantity exceeds it. */
  lemma ThresholdWithinExactly(capacity: nat, signal: Signal)
    ensures Threshold(capacity, signal) <= capacity <==> Within(capacity, signal)
  {
    match signal
    case Percent(p) =>
      var x := capacity as real / 100.0 * p;
      if p <= 100.0 {
        PercentOf(capacity as real / 100.0, p, 100.0);
        assert x <= capacity as real;
      } else if capacity > 0 {
        PercentAbove(capacity as real / 100.0, 100.0, p);
        assert x > capacity as real;
      }
    case Quantity(_) =>
  }

  lemma PercentOf(part: real, p: real, whole: real)
    requires part >= 0.0 && p <= whole
    ensures part * p <= part * whole
  {}

  lemma PercentAbove(part: real, whole: real, p: real)
    requires part > 0.0 && whole < p
    ensures part * whole < part * p
  {}

  ghost predicate IsMaximum(value: int, values: seq<int>) {
    value in values && forall other :: other in values ==> other <= value
  }

  const FILESYSTEMS := [NODEFS_AVAILABLE, IMAGEFS_AVAILABLE]

  /** What the named signals ask for. */
  ghost function Asked(capacity: int, signals: Signals, names: seq<string>): seq<int> {
    if names == [] then []
    else Asked(capacity, signals, names[..|names| - 1]) + AskedOnce(capacity, signals, names[|names| - 1])
  }

  ghost function AskedOnce(capacity: int, signals: Signals, name: string): seq<int> {
    if name in signals then [Threshold(capacity, signals[name])] else []
  }

  ghost function AskedByAll(capacity: int, maps: seq<Signals>, names: seq<string>): seq<int> {
    if maps == [] then []
    else AskedByAll(capacity, maps[..|maps| - 1], names) + Asked(capacity, maps[|maps| - 1], names)
  }

  /** The stricter of the two file-system signals. */
  method StorageEvictionSignal(capacity: int, signals: Signals) returns (threshold: int, found: bool)
    ensures found <==> Asked(capacity, signals, FILESYSTEMS) != []
    ensures found ==> IsMaximum(threshold, Asked(capacity, signals, FILESYSTEMS))
  {
    threshold, found := 0, false;
    for i := 0 to |FILESYSTEMS|
      invariant found <==> Asked(capacity, signals, FILESYSTEMS[..i]) != []
      invariant found ==> IsMaximum(threshold, Asked(capacity, signals, FILESYSTEMS[..i]))
    {
      var name := FILESYSTEMS[i];
      assert FILESYSTEMS[..i + 1][..i] == FILESYSTEMS[..i];
      if name !in signals { continue; }
      var candidate := Threshold(capacity, signals[name]);
      if !found || candidate > threshold { threshold, found := candidate, true; }
    }
    assert FILESYSTEMS[..|FILESYSTEMS|] == FILESYSTEMS;
  }

  /** Key by key the greater quantity. */
  function MaxResources(a: Resources, b: Resources): Resources {
    map k | k in a.Keys + b.Keys :: if k in a && (k !in b || b[k] <= a[k]) then a[k] else b[k]
  }

  /** The resource is there exactly when some value is asked for, and then is the greatest of them. */
  ghost predicate HoldsMaximum(resources: Resources, k: string, values: seq<int>) {
    && (k in resources <==> values != [])
    && (k in resources ==> IsMaximum(resources[k], values))
  }

  lemma MaximumOfBoth(a: Resources, b: Resources, k: string, xs: seq<int>, ys: seq<int>)
    requires HoldsMaximum(a, k, xs) && HoldsMaximum(b, k, ys)
    ensures HoldsMaximum(MaxResources(a, b), k, xs + ys)
  {}

  predicate DefaultsApply(hard: Option<Signals>) {
    hard.None? || hard.value == map[]
  }

  function GivenMaps(hard: Option<Signals>, soft: Option<Signals>): seq<Signals> {
    (if hard.Some? then [hard.value] else []) + (if soft.Some? then [soft.value] else [])
  }

  ghost function Defaults(capacity: int, hard: Option<Signals>): seq<int> {
    if DefaultsApply(hard) then [Threshold(capacity, Percent(10.0)), Threshold(capacity, Percent(15.0))] else []
  }

  /** Every storage threshold that applies: hard and soft signals, and without hard signals the two defaults. */
  ghost function StorageValues(capacity: int, hard: Option<Signals>, soft: Option<Signals>): seq<int> {
    AskedByAll(capacity, GivenMaps(hard, soft), FILESYSTEMS) + Defaults(capacity, hard)
  }

  ghost function MemoryValues(capacity: int, hard: Option<Signals>, soft: Option<Signals>): seq<int> {
    AskedByAll(capacity, GivenMaps(hard, soft), [MEMORY_AVAILABLE])
  }

  /** One map of signals names a file system and asks for this value. */
  ghost predicate AsksStorage(capacity: int, signals: Option<Signals>, v: int) {
    signals.Some? && (|| ("nodefs.available" in signals.value && v == Threshold(capacity, signals.value["nodefs.available"]))
                      || ("imagefs.available" in signals.value && v == Threshold(capacity, signals.value["imagefs.available"])))
  }

  ghost predicate AsksMemory(capacity: int, signals: Option<Signals>, v: int) {
    signals.Some? && "memory.available" in signals.value && v == Threshold(capacity, signals.value["memory.available"])
  }

  /**
   Which values count: those of the hard signals, those of the soft signals, and for storage, when there are no hard
   signals, a tenth of the capacity and fifteen hundredths.
   */
  lemma ValuesExactly(capacity: int, hard: Option<Signals>, soft: Option<Signals>, v: int)
    ensures v in StorageValues(capacity, hard, soft) <==>
      || AsksStorage(capacity, hard, v) || AsksStorage(capacity, soft, v)
      || ((hard.None? || hard.value == map[])
          && (v == Threshold(capacity, Percent(10.0)) || v == Threshold(capacity, Percent(15.0))))
    ensures v in MemoryValues(capacity, hard, soft) <==> AsksMemory(capacity, hard, v) || AsksMemory(capacity, soft, v)
  {
    hide Threshold;
    if hard.Some? { AskedExactly(capacity, hard.value, v); }
    if soft.Some? { AskedExactly(capacity, soft.value, v); }
    AskedByGiven(capacity, hard, soft, FILESYSTEMS);
    AskedByGiven(capacity, hard, soft, [MEMORY_AVAILABLE]);
    hide Asked, AskedByAll;
  }

  lemma AskedByGiven(capacity: int, hard: Option<Signals>, soft: Option<Signals>, names: seq<string>)
    ensures AskedByAll(capacity, GivenMaps(hard, soft), names)
         == (if hard.Some? then Asked(capacity, hard.value, names) else [])
            + (if soft.Some? then Asked(capacity, soft.value, names) else [])
  {
    hide Asked;
    var maps := GivenMaps(hard, soft);
    assert AskedByAll(capacity, [], names) == [];
    if maps != [] {
      assert maps[..|maps| - 1] == [] || maps[..|maps| - 1] == [maps[0]];
      assert [maps[0]][..0] == [];
      assert AskedByAll(capacity, [maps[0]], names) == Asked(capacity, maps[0], names);
    }
  }

  lemma AskedExactly(capacity: int, signals: Signals, v: int)
    ensures v in Asked(capacity, signals, FILESYSTEMS) <==> AsksStorage(capacity, Some(signals), v)
    ensures v in Asked(capacity, signals, [MEMORY_AVAILABLE]) <==> AsksMemory(capacity, Some(signals), v)
  {
    hide Threshold;
    assert FILESYSTEMS[..1] == [NODEFS_AVAILABLE] && [NODEFS_AVAILABLE][..0] == [] && [MEMORY_AVAILABLE][..0] == [];
    assert Asked(capacity, signals, []) == [];
    assert Asked(capacity, signals, [NODEFS_AVAILABLE]) == AskedOnce(capacity, signals, NODEFS_AVAILABLE);
    assert Asked(capacity, signals, [MEMORY_AVAILABLE]) == AskedOnce(capacity, signals, MEMORY_AVAILABLE);
    assert Asked(capacity, signals, FILESYSTEMS)
        == Asked(capacity, signals, [NODEFS_AVAILABLE]) + AskedOnce(capacity, signals, IMAGEFS_AVAILABLE);
  }

  /**
   The thresholds that count: memory is the greatest memory signal, 100Mi when none is given, and storage the
   greatest of all that apply.
   */
  method EvictionThreshold(memory: int, storage: int, hard: Option<Signals>, soft: Option<Signals>)
      returns (overhead: Resources)
    ensures overhead.Keys <= {MEMORY, STORAGE} && MEMORY in overhead
    ensures IsMaximum(overhead[MEMORY],
                      if MemoryValues(memory, hard, soft) == [] then [100 * MI] else MemoryValues(memory, hard, soft))
    ensures HoldsMaximum(overhead, STORAGE, StorageValues(storage, hard, soft))
  {
    hide HoldsBoth, HoldsMaximum, IsMaximum, MemoryValues, StorageValues, DefaultsApply;
    var maps := GivenMaps(hard, soft);
    var override: Resources := map[];
    NothingAsked(memory, storage);
    for i := 0 to |maps|
      invariant override.Keys <= {MEMORY, STORAGE} && HoldsBoth(override, memory, storage, maps[..i])
    {
      var temp := TakeSignals(memory, storage, maps[i]);
      assert maps[..i + 1] == maps[..i] + [maps[i]];
      HoldsOneMore(override, memory, storage, maps[..i], maps[i], temp);
      override := MaxResources(override, temp);
    }
    assert maps[..|maps|] == maps;
    ghost var given := override;
    if DefaultsApply(hard) {
      var nodefs, imagefs := Threshold(storage, Percent(10.0)), Threshold(storage, Percent(15.0));
      override := MaxResources(override, map[STORAGE := if imagefs > nodefs then imagefs else nodefs]);
    }
    overhead := map[MEMORY := 100 * MI] + override;
    OverridesBase(memory, storage, hard, soft, given);
  }

  /** The greatest value each resource is asked for by some maps of signals. */
  ghost predicate HoldsBoth(override: Resources, memory: int, storage: int, maps: seq<Signals>) {
    && HoldsMaximum(override, MEMORY, AskedByAll(memory, maps, [MEMORY_AVAILABLE]))
    && HoldsMaximum(override, STORAGE, AskedByAll(storage, maps, FILESYSTEMS))
  }

  lemma NothingAsked(memory: int, storage: int)
    ensures HoldsBoth(map[], memory, storage, [])
  {}

  lemma HoldsOneMore(override: Resources, memory: int, storage: int, maps: seq<Signals>, last: Signals, temp: Resources)
    requires HoldsBoth(override, memory, storage, maps)
    requires HoldsMaximum(temp, MEMORY, Asked(memory, last, [MEMORY_AVAILABLE]))
    requires HoldsMaximum(temp, STORAGE, Asked(storage, last, FILESYSTEMS))
    ensures HoldsBoth(MaxResources(override, temp), memory, storage, maps + [last])
  {
    hide HoldsMaximum, Asked, MaxResources;
    assert (maps + [last])[..|maps|] == maps;
    MaximumOfBoth(override, temp, MEMORY, AskedByAll(memory, maps, [MEMORY_AVAILABLE]), Asked(memory, last, [MEMORY_AVAILABLE]));
    MaximumOfBoth(override, temp, STORAGE, AskedByAll(storage, maps, FILESYSTEMS), Asked(storage, last, FILESYSTEMS));
  }

  lemma GreaterOfTwo(resources: Resources, a: int, b: int)
    requires resources == map[STORAGE := if b > a then b else a]
    ensures HoldsMaximum(resources, STORAGE, [a, b]) && HoldsMaximum(resources, MEMORY, [])
  {}

  /** The defaults join the given signals when they apply, and the base gives the memory nobody asks for. */
  lemma OverridesBase(memory: int, storage: int, hard: Option<Signals>, soft: Option<Signals>, given: Resources)
    requires HoldsBoth(given, memory, storage, GivenMaps(hard, soft))
    ensures var a, b := Threshold(storage, Percent(10.0)), Threshold(storage, Percent(15.0));
      var override := if DefaultsApply(hard) then MaxResources(given, map[STORAGE := if b > a then b else a]) else given;
      var overhead: Resources := map[MEMORY := 100 * MI] + override;
      && IsMaximum(overhead[MEMORY],
                   if MemoryValues(memory, hard, soft) == [] then [100 * MI] else MemoryValues(memory, hard, soft))
      && HoldsMaximum(overhead, STORAGE, StorageValues(storage, hard, soft))
  {
    hide AskedByAll, Threshold, MaxResources;
    var a, b := Threshold(storage, Percent(10.0)), Threshold(storage, Percent(15.0));
    var fs, mem := AskedByAll(storage, GivenMaps(hard, soft), FILESYSTEMS), MemoryValues(memory, hard, soft);
    var override := given;
    if DefaultsApply(hard) {
      var defaults := map[STORAGE := if b > a then b else a];
      GreaterOfTwo(defaults, a, b);
      MaximumOfBoth(given, defaults, STORAGE, fs, [a, b]);
      MaximumOfBoth(given, defaults, MEMORY, mem, []);
      assert mem + [] == mem;
      override := MaxResources(given, defaults);
    } else {
      assert fs + [] == fs;
    }
    assert HoldsMaximum(override, MEMORY, mem) && HoldsMaximum(override, STORAGE, StorageValues(storage, hard, soft));
    hide MemoryValues, StorageValues;
    BaseMemory(override, mem, StorageValues(storage, hard, soft));
  }

  lemma BaseMemory(override: Resources, memoryValues: seq<int>, storageValues: seq<int>)
    requires HoldsMaximum(override, MEMORY, memoryValues) && HoldsMaximum(override, STORAGE, storageValues)
    ensures var overhead: Resources := map[MEMORY := 100 * MI] + override;
      && IsMaximum(overhead[MEMORY], if memoryValues == [] then [100 * MI] else memoryValues)
      && HoldsMaximum(overhead, STORAGE, storageValues)
  {}

  /** The thresholds one map of signals asks for. */
  method TakeSignals(memory: int, storage: int, signals: Signals) returns (temp: Resources)
    ensures temp.Keys <= {MEMORY, STORAGE}
    ensures HoldsMaximum(temp, MEMORY, Asked(memory, signals, [MEMORY_AVAILABLE]))
    ensures HoldsMaximum(temp, STORAGE, Asked(storage, signals, FILESYSTEMS))
  {
    temp := map[];
    if MEMORY_AVAILABLE in signals { temp := temp[MEMORY := Threshold(memory, signals[MEMORY_AVAILABLE])]; }
    assert [MEMORY_AVAILABLE][..0] == [];
    assert Asked(memory, signals, [MEMORY_AVAILABLE]) == if MEMORY in temp then [temp[MEMORY]] else [];
    hide Asked;
    var threshold, found := StorageEvictionSignal(storage, signals);
    if found { temp := temp[STORAGE := threshold]; }
  }

  ghost predicate AllAtMost(values: seq<int>, bound: int) {
    forall v :: v in values ==> v <= bound
  }

  ghost predicate AllWithin(capacity: nat, signals: Signals, names: seq<string>) {
    forall name :: name in names && name in signals ==> Within(capacity, signals[name])
  }

  lemma {:induction false} AskedWithin(capacity: nat, signals: Signals, names: seq<string>)
    ensures AllAtMost(Asked(capacity, signals, names), capacity) <==> AllWithin(capacity, signals, names)
  {
    if names != [] {
      var front, last := names[..|names| - 1], names[|names| - 1];
      AskedWithin(capacity, signals, front);
      LastWithin(capacity, signals, last);
      AtMostConcat(Asked(capacity, signals, front), AskedOnce(capacity, signals, last), capacity);
      assert names == front + [last] && forall name :: name in names <==> name in front || name == last;
    }
  }

  lemma AtMostOne(value: int, bound: int)
    ensures AllAtMost([value], bound) <==> value <= bound
  {
    var values := [value];
    assert values[0] in values;
    assert forall v :: v in values ==> v == value;
  }

  lemma LastWithin(capacity: nat, signals: Signals, name: string)
    ensures AllAtMost(AskedOnce(capacity, signals, name), capacity)
      <==> (name in signals ==> Within(capacity, signals[name]))
  {
    if name in signals {
      ThresholdWithinExactly(capacity, signals[name]);
      AtMostOne(Threshold(capacity, signals[name]), capacity);
      hide Threshold, Within;
    }
  }

  lemma AtMostConcat(xs: seq<int>, ys: seq<int>, bound: int)
    ensures AllAtMost(xs + ys, bound) <==> AllAtMost(xs, bound) && AllAtMost(ys, bound)
  {
    assert forall v :: v in xs + ys <==> v in xs || v in ys;
  }

  lemma {:induction false} AskedByAllWithin(capacity: nat, maps: seq<Signals>, names: seq<string>)
    ensures AllAtMost(AskedByAll(capacity, maps, names), capacity)
      <==> forall m :: m in maps ==> AllWithin(capacity, m, names)
  {
    if maps != [] {
      var front, last := maps[..|maps| - 1], maps[|maps| - 1];
      assert maps == front + [last];
      AskedByAllWithin(capacity, front, names);
      AskedWithin(capacity, last, names);
      AtMostConcat(AskedByAll(capacity, front, names), Asked(capacity, last, names), capacity);
    }
  }

  /**
   The storage threshold fits the capacity exactly when every file-system signal given does: percentages of at
   most 100, quantities of at most the capacity. The defaults always fit.
   */
  lemma StorageWithinExactly(capacity: nat, hard: Option<Signals>, soft: Option<Signals>, threshold: int)
    requires IsMaximum(threshold, StorageValues(capacity, hard, soft))
    ensures threshold <= capacity <==> forall m :: m in GivenMaps(hard, soft) ==> AllWithin(capacity, m, FILESYSTEMS)
  {
    ThresholdWithinExactly(capacity, Percent(10.0));
    ThresholdWithinExactly(capacity, Percent(15.0));
    assert AllAtMost(Defaults(capacity, hard), capacity);
    AskedByAllWithin(capacity, GivenMaps(hard, soft), FILESYSTEMS);
    AtMostConcat(AskedByAll(capacity, GivenMaps(hard, soft), FILESYSTEMS), Defaults(capacity, hard), capacity);
    assert threshold <= capacity <==> AllAtMost(StorageValues(capacity, hard, soft), capacity);
  }
}
