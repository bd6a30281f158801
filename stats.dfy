/** The statistics the runtime library reports (libcontainer.Stats and its cgroup sections)
    and the driver's ResourceStats record that wraps them. */
module RuntimeStats {
  import opened Wrappers

  const TwoTo64: int := 0x1_0000_0000_0000_0000

  /** Go's uint64. */
  type uint64 = x: int | 0 <= x < TwoTo64

  datatype NetworkInterface = NetworkInterface(
    name: string,
    rxBytes: uint64, rxPackets: uint64, rxErrors: uint64, rxDropped: uint64,
    txBytes: uint64, txPackets: uint64, txErrors: uint64, txDropped: uint64)

  datatype BlkioStatEntry = BlkioStatEntry(major: uint64, minor: uint64, op: string, value: uint64)

  datatype BlkioStats = BlkioStats(
    ioServiceBytesRecursive: seq<BlkioStatEntry>,
    ioServicedRecursive: seq<BlkioStatEntry>,
    ioQueuedRecursive: seq<BlkioStatEntry>,
    ioServiceTimeRecursive: seq<BlkioStatEntry>,
    ioWaitTimeRecursive: seq<BlkioStatEntry>,
    ioMergedRecursive: seq<BlkioStatEntry>,
    ioTimeRecursive: seq<BlkioStatEntry>,
    sectorsRecursive: seq<BlkioStatEntry>)

  datatype CpuUsage = CpuUsage(
    totalUsage: uint64, percpuUsage: seq<uint64>, usageInKernelmode: uint64, usageInUsermode: uint64)

  datatype ThrottlingData = ThrottlingData(periods: uint64, throttledPeriods: uint64, throttledTime: uint64)

  datatype CpuStats = CpuStats(cpuUsage: CpuUsage, throttlingData: ThrottlingData)

  datatype MemoryStats = MemoryStats(usage: uint64, maxUsage: uint64, stats: map<string, uint64>, failcnt: uint64)

  datatype CgroupStats = CgroupStats(cpuStats: CpuStats, memoryStats: MemoryStats, blkioStats: BlkioStats)

  /** libcontainer.Stats; `None` stands for a nil slice or pointer. */
  datatype Stats = Stats(interfaces: Option<seq<NetworkInterface>>, cgroupStats: Option<CgroupStats>)

  /** execdriver.ResourceStats: the raw statistics with the read time (abstracted to an int),
      the effective memory limit (Go int64) and the host CPU usage filled in by the collector. */
  datatype ResourceStats = ResourceStats(stats: Stats, read: int, memoryLimit: int, systemUsage: uint64)
}

/** The versioned API statistics record (api/stats). */
module ApiStats {
  import RuntimeStats

  type uint64 = RuntimeStats.uint64

  datatype Network = Network(
    rxBytes: uint64, rxPackets: uint64, rxErrors: uint64, rxDropped: uint64,
    txBytes: uint64, txPackets: uint64, txErrors: uint64, txDropped: uint64)

  datatype BlkioStatEntry = BlkioStatEntry(major: uint64, minor: uint64, op: string, value: uint64)

  datatype BlkioStats = BlkioStats(
    ioServiceBytesRecursive: seq<BlkioStatEntry>,
    ioServicedRecursive: seq<BlkioStatEntry>,
    ioQueuedRecursive: seq<BlkioStatEntry>,
    ioServiceTimeRecursive: seq<BlkioStatEntry>,
    ioWaitTimeRecursive: seq<BlkioStatEntry>,
    ioMergedRecursive: seq<BlkioStatEntry>,
    ioTimeRecursive: seq<BlkioStatEntry>,
    sectorsRecursive: seq<BlkioStatEntry>)

  datatype CpuUsage = CpuUsage(
    totalUsage: uint64, percpuUsage: seq<uint64>, usageInKernelmode: uint64, usageInUsermode: uint64)

  datatype ThrottlingData = ThrottlingData(periods: uint64, throttledPeriods: uint64, throttledTime: uint64)

  datatype CpuStats = CpuStats(cpuUsage: CpuUsage, systemUsage: uint64, throttlingData: ThrottlingData)

  datatype MemoryStats = MemoryStats(
    usage: uint64, maxUsage: uint64, stats: map<string, uint64>, failcnt: uint64, limit: uint64)

  datatype Stats = Stats(
    read: int, network: Network, cpuStats: CpuStats, memoryStats: MemoryStats, blkioStats: BlkioStats)

  const ZeroNetwork := Network(0, 0, 0, 0, 0, 0, 0, 0)
  const ZeroBlkio := BlkioStats([], [], [], [], [], [], [], [])
  const ZeroCpu := CpuStats(CpuUsage(0, [], 0, 0), 0, ThrottlingData(0, 0, 0))
  const ZeroMemory := MemoryStats(0, 0, map[], 0, 0)
  /** The zero value of stats.Stats. */
  const Zero := Stats(0, ZeroNetwork, ZeroCpu, ZeroMemory, ZeroBlkio)
}

/** The statistics normaliser of the daemon: libcontainer statistics to the API record. */
module DaemonStats {
  import opened Wrappers
  import opened RuntimeStats
  import Api = ApiStats

  /** The eight network counters. */
  datatype Counter = RxBytes | RxPackets | RxErrors | RxDropped | TxBytes | TxPackets | TxErrors | TxDropped

  function Get(i: NetworkInterface, c: Counter): uint64
  {
    match c
    case RxBytes => i.rxBytes
    case RxPackets => i.rxPackets
    case RxErrors => i.rxErrors
    case RxDropped => i.rxDropped
    case TxBytes => i.txBytes
    case TxPackets => i.txPackets
    case TxErrors => i.txErrors
    case TxDropped => i.txDropped
  }

  function GetApi(n: Api.Network, c: Counter): uint64
  {
    match c
    case RxBytes => n.rxBytes
    case RxPackets => n.rxPackets
    case RxErrors => n.rxErrors
    case RxDropped => n.rxDropped
    case TxBytes => n.txBytes
    case TxPackets => n.txPackets
    case TxErrors => n.txErrors
    case TxDropped => n.txDropped
  }

  /** The exact (unbounded) total of one counter over the interfaces. */
  function Sum(ifaces: seq<NetworkInterface>, c: Counter): nat
  {
    if ifaces == [] then 0 else Sum(ifaces[..|ifaces| - 1], c) + Get(ifaces[|ifaces| - 1], c)
  }

  /** Go's uint64 `+=`: addition wraps around modulo 2^64. */
  function Add64(a: uint64, b: uint64): (r: uint64)
    ensures r == (a + b) % TwoTo64
  {
    (a + b) % TwoTo64
  }

  lemma AddModulo(a: nat, b: nat)
    ensures (a % TwoTo64 + b) % TwoTo64 == (a + b) % TwoTo64
  {
    var q := a / TwoTo64;
    assert a == q * TwoTo64 + a % TwoTo64;
    assert a + b == q * TwoTo64 + (a % TwoTo64 + b);
    ModMultiple(q, a % TwoTo64 + b);
  }

  lemma {:induction false} ModMultiple(q: nat, x: nat)
    ensures (q * TwoTo64 + x) % TwoTo64 == x % TwoTo64
  {
    if q > 0 {
      ModMultiple(q - 1, x);
      assert q * TwoTo64 + x == (q - 1) * TwoTo64 + x + TwoTo64;
    }
  }

  /** With no wrap-around the reported counter is the exact total. */
  lemma SumWithoutOverflow(ifaces: seq<NetworkInterface>, c: Counter)
    requires Sum(ifaces, c) < TwoTo64
    ensures Sum(ifaces, c) % TwoTo64 == Sum(ifaces, c)
  {
  }

  predicate NetworkIsSum(n: Api.Network, ifaces: seq<NetworkInterface>)
  {
    forall c: Counter :: GetApi(n, c) == Sum(ifaces, c) % TwoTo64
  }

  function CopyEntry(e: BlkioStatEntry): Api.BlkioStatEntry
  {
    Api.BlkioStatEntry(e.major, e.minor, e.op, e.value)
  }

  /** The output list mirrors the input list entry by entry. */
  predicate CopiedEntries(entries: seq<BlkioStatEntry>, out: seq<Api.BlkioStatEntry>)
  {
    |out| == |entries| &&
    forall i :: 0 <= i < |entries| ==>
      out[i].major == entries[i].major && out[i].minor == entries[i].minor &&
      out[i].op == entries[i].op && out[i].value == entries[i].value
  }

  predicate CopiedBlkio(b: BlkioStats, o: Api.BlkioStats)
  {
    && CopiedEntries(b.ioServiceBytesRecursive, o.ioServiceBytesRecursive)
    && CopiedEntries(b.ioServicedRecursive, o.ioServicedRecursive)
    && CopiedEntries(b.ioQueuedRecursive, o.ioQueuedRecursive)
    && CopiedEntries(b.ioServiceTimeRecursive, o.ioServiceTimeRecursive)
    && CopiedEntries(b.ioWaitTimeRecursive, o.ioWaitTimeRecursive)
    && CopiedEntries(b.ioMergedRecursive, o.ioMergedRecursive)
    && CopiedEntries(b.ioTimeRecursive, o.ioTimeRecursive)
    && CopiedEntries(b.sectorsRecursive, o.sectorsRecursive)
  }

  /** The CPU section copied one for one; the host usage is not the runtime's to give. */
  predicate CopiedCpu(c: CpuStats, o: Api.CpuStats)
  {
    && o.cpuUsage.totalUsage == c.cpuUsage.totalUsage
    && o.cpuUsage.percpuUsage == c.cpuUsage.percpuUsage
    && o.cpuUsage.usageInKernelmode == c.cpuUsage.usageInKernelmode
    && o.cpuUsage.usageInUsermode == c.cpuUsage.usageInUsermode
    && o.throttlingData.periods == c.throttlingData.periods
    && o.throttlingData.throttledPeriods == c.throttlingData.throttledPeriods
    && o.throttlingData.throttledTime == c.throttlingData.throttledTime
    && o.systemUsage == 0
  }

  predicate CopiedMemory(m: MemoryStats, o: Api.MemoryStats)
  {
    o.usage == m.usage && o.maxUsage == m.maxUsage && o.stats == m.stats &&
    o.failcnt == m.failcnt && o.limit == 0
  }

  /** What convertToAPITypes promises: network counters summed over the interfaces (zero
      without interfaces); blkio, cpu and memory copied field by field when cgroup statistics
      are present and zero otherwise; read time, host usage and limit left zero. */
  predicate Converted(ls: Stats, s: Api.Stats)
  {
    && s.read == 0
    && (ls.interfaces.None? ==> s.network == Api.ZeroNetwork)
    && (ls.interfaces.Some? ==> NetworkIsSum(s.network, ls.interfaces.value))
    && (ls.cgroupStats.None? ==>
          s.blkioStats == Api.ZeroBlkio && s.cpuStats == Api.ZeroCpu && s.memoryStats == Api.ZeroMemory)
    && (ls.cgroupStats.Some? ==>
          && CopiedBlkio(ls.cgroupStats.value.blkioStats, s.blkioStats)
          && CopiedCpu(ls.cgroupStats.value.cpuStats, s.cpuStats)
          && CopiedMemory(ls.cgroupStats.value.memoryStats, s.memoryStats))
  }

  /** copyBlkioEntry: a new list of the same length, filled by index. */
  method CopyBlkioEntry(entries: seq<BlkioStatEntry>) returns (out: seq<Api.BlkioStatEntry>)
    ensures CopiedEntries(entries, out)
  {
    var a := new Api.BlkioStatEntry[|entries|];
    for i := 0 to |entries|
      invariant forall k :: 0 <= k < i ==> a[k] == CopyEntry(entries[k])
    {
      var re := entries[i];
      a[i] := Api.BlkioStatEntry(re.major, re.minor, re.op, re.value);
    }
    out := a[..];
  }

  /** Adds one interface's counters to the running totals. */
  function AddInterface(n: Api.Network, i: NetworkInterface): Api.Network
  {
    Api.Network(
      Add64(n.rxBytes, i.rxBytes), Add64(n.rxPackets, i.rxPackets),
      Add64(n.rxErrors, i.rxErrors), Add64(n.rxDropped, i.rxDropped),
      Add64(n.txBytes, i.txBytes), Add64(n.txPackets, i.txPackets),
      Add64(n.txErrors, i.txErrors), Add64(n.txDropped, i.txDropped))
  }

  lemma AddInterfaceSum(n: Api.Network, ifaces: seq<NetworkInterface>, i: nat)
    requires i < |ifaces|
    requires NetworkIsSum(n, ifaces[..i])
    ensures NetworkIsSum(AddInterface(n, ifaces[i]), ifaces[..i + 1])
  {
    var p := ifaces[..i];
    assert ifaces[..i + 1][..i] == p;
    forall c: Counter
      ensures GetApi(AddInterface(n, ifaces[i]), c) == Sum(ifaces[..i + 1], c) % TwoTo64
    {
      assert Sum(ifaces[..i + 1], c) == Sum(p, c) + Get(ifaces[i], c);
      AddCounter(n, ifaces[i], c);
      AddModulo(Sum(p, c), Get(ifaces[i], c));
    }
  }

  /** Each counter of the new totals is the wrapped sum of the old total and the interface's. */
  lemma AddCounter(n: Api.Network, i: NetworkInterface, c: Counter)
    ensures GetApi(AddInterface(n, i), c) == Add64(GetApi(n, c), Get(i, c))
  {
  }

  /** convertToAPITypes. */
  method ConvertToAPITypes(ls: Stats) returns (s: Api.Stats)
    ensures Converted(ls, s)
  {
    s := Api.Zero;
    if ls.interfaces.Some? {
      var ifaces := ls.interfaces.value;
      var net := Api.ZeroNetwork;
      for i := 0 to |ifaces|
        invariant NetworkIsSum(net, ifaces[..i])
      {
        AddInterfaceSum(net, ifaces, i);
        net := AddInterface(net, ifaces[i]);
      }
      assert ifaces[..|ifaces|] == ifaces;
      s := s.(network := net);
    }
    if ls.cgroupStats.Some? {
      var cs := ls.cgroupStats.value;
      var b := cs.blkioStats;
      var e1 := CopyBlkioEntry(b.ioServiceBytesRecursive);
      var e2 := CopyBlkioEntry(b.ioServicedRecursive);
      var e3 := CopyBlkioEntry(b.ioQueuedRecursive);
      var e4 := CopyBlkioEntry(b.ioServiceTimeRecursive);
      var e5 := CopyBlkioEntry(b.ioWaitTimeRecursive);
      var e6 := CopyBlkioEntry(b.ioMergedRecursive);
      var e7 := CopyBlkioEntry(b.ioTimeRecursive);
      var e8 := CopyBlkioEntry(b.sectorsRecursive);
      var cpu := cs.cpuStats;
      var mem := cs.memoryStats;
      s := s.(
        blkioStats := Api.BlkioStats(e1, e2, e3, e4, e5, e6, e7, e8),
        cpuStats := Api.CpuStats(
          Api.CpuUsage(cpu.cpuUsage.totalUsage, cpu.cpuUsage.percpuUsage,
                       cpu.cpuUsage.usageInKernelmode, cpu.cpuUsage.usageInUsermode),
          0,
          Api.ThrottlingData(cpu.throttlingData.periods, cpu.throttlingData.throttledPeriods,
                             cpu.throttlingData.throttledTime)),
        memoryStats := Api.MemoryStats(mem.usage, mem.maxUsage, mem.stats, mem.failcnt, 0));
    }
  }

  /** Go's uint64(x) conversion of an int64. */
  function ToUint64(x: int): (r: uint64)
    ensures 0 <= x < TwoTo64 ==> r == x
    ensures x < 0 && -TwoTo64 <= x ==> r == x + TwoTo64
  {
    x % TwoTo64
  }

  /** One iteration of ContainerStats' loop: convert, then take the limit, the read time and
      the host CPU usage from the driver's update. */
  method EncodeUpdate(update: ResourceStats) returns (ss: Api.Stats)
    ensures ss.memoryStats.limit == ToUint64(update.memoryLimit)
    ensures ss.read == update.read
    ensures ss.cpuStats.systemUsage == update.systemUsage
    ensures Converted(update.stats,
      ss.(read := 0,
          cpuStats := ss.cpuStats.(systemUsage := 0),
          memoryStats := ss.memoryStats.(limit := 0)))
  {
    ss := ConvertToAPITypes(update.stats);
    ss := ss.(memoryStats := ss.memoryStats.(limit := ToUint64(update.memoryLimit)));
    ss := ss.(read := update.read);
    ss := ss.(cpuStats := ss.cpuStats.(systemUsage := update.systemUsage));
  }
}
