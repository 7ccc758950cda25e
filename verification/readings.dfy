/**
 * What each registered sensor shows for the latest snapshot: the `state`
 * and `is_on` properties of the sensor classes in
 * custom_components/mycloud/sensor.py.
 */
module Readings {
  import opened Wrappers
  import opened Snapshot
  import opened Sensors

  /** A sensor's value: a number, a binary sensor's on/off, or unknown (`None`). */
  datatype Reading = Number(x: real) | OnOff(on: bool) | Unknown

  /** `i` is the first position of `disks` whose disk is called `name`. */
  predicate FirstNamed(disks: seq<Disk>, name: string, i: nat) {
    i < |disks| && disks[i].name == name && forall j | 0 <= j < i :: disks[j].name != name
  }

  /** The linear search every per-disk sensor runs: the first disk with the given name. */
  function FindDisk(disks: seq<Disk>, name: string): (r: Option<nat>)
    ensures r.None? <==> forall i | 0 <= i < |disks| :: disks[i].name != name
    ensures r.Some? ==> FirstNamed(disks, name, r.value)
  {
    if disks == [] then None
    else if disks[0].name == name then Some(0)
    else match FindDisk(disks[1..], name)
      case None => None
      case Some(i) => Some(i + 1)
  }

  /** The disk the search finds, if any. */
  function Lookup(disks: seq<Disk>, name: string): (r: Option<Disk>)
    ensures r.None? <==> forall i | 0 <= i < |disks| :: disks[i].name != name
    ensures forall i: nat | FirstNamed(disks, name, i) :: r == Some(disks[i])
  {
    match FindDisk(disks, name)
    case None => None
    case Some(i) => Some(disks[i])
  }

  /** The temperature sensor's state: the first matching disk's `temp`, `None` if no disk matches. */
  function DiskTemperature(disks: seq<Disk>, name: string): (r: Option<real>)
    ensures r.None? <==> forall i | 0 <= i < |disks| :: disks[i].name != name
    ensures forall i: nat | FirstNamed(disks, name, i) :: r == Some(disks[i].temp)
  {
    match Lookup(disks, name)
    case None => None
    case Some(d) => Some(d.temp)
  }

  function FlagOf(d: Disk, f: Flag): bool {
    match f
    case Healthy => d.healthy
    case Sleep => d.sleep
    case Failed => d.failed
    case OverTemp => d.overTemp
  }

  /** A binary disk sensor's `is_on`: the first matching disk's flag, `False` if no disk matches. */
  function DiskFlagOn(disks: seq<Disk>, name: string, f: Flag): (r: bool)
    ensures (forall i | 0 <= i < |disks| :: disks[i].name != name) ==> !r
    ensures forall i: nat | FirstNamed(disks, name, i) :: r == FlagOf(disks[i], f)
  {
    match Lookup(disks, name)
    case None => false
    case Some(d) => FlagOf(d, f)
  }

  /**
   * Python's `round(y)` on an exact value: the nearest integer, ties to the
   * even one.
   */
  function RoundHalfEven(y: real): (n: int)
    ensures -0.5 <= n as real - y <= 0.5
    ensures (n as real - y == 0.5 || y - n as real == 0.5) ==> n % 2 == 0
  {
    var f := y.Floor;
    var frac := y - f as real;
    if frac < 0.5 then f
    else if frac > 0.5 then f + 1
    else if f % 2 == 0 then f
    else f + 1
  }

  /** `round(x, 2)`: the nearest multiple of 0.01, ties to the even multiple. */
  function Round2(x: real): (r: real)
    ensures -0.005 <= r - x <= 0.005
    ensures (r * 100.0).Floor as real == r * 100.0
    ensures (r - x == 0.005 || x - r == 0.005) ==> (r * 100.0).Floor % 2 == 0
  {
    RoundHalfEven(x * 100.0) as real / 100.0
  }

  /**
   * The memory sensor's state: the used share of memory in percent, rounded
   * to two decimals, and `None` unless the total is positive.
   */
  function MemoryPercent(m: Memory): (r: Option<real>)
    ensures r.None? <==> m.total <= 0
    ensures r.Some? ==> r.value == Round2((m.total - m.unused) as real / m.total as real * 100.0)
    ensures r.Some? ==>
      -0.005 <= r.value - (m.total - m.unused) as real / m.total as real * 100.0 <= 0.005
    ensures r.Some? && 0 <= m.unused <= m.total ==> 0.0 <= r.value <= 100.0
  {
    var total := m.total;
    var used := total - m.unused;
    if total > 0 then
      var p := used as real / total as real * 100.0;
      PercentInRange(used, total);
      Round2InRange(p);
      Some(Round2(p))
    else None
  }

  lemma PercentInRange(used: int, total: int)
    requires total > 0
    ensures 0 <= used <= total ==> 0.0 <= used as real / total as real * 100.0 <= 100.0
  {
    if 0 <= used <= total {
      assert used as real / total as real <= 1.0;
    }
  }

  /** Rounding keeps a percentage within 0..100. */
  lemma Round2InRange(p: real)
    ensures 0.0 <= p <= 100.0 ==> 0.0 <= Round2(p) <= 100.0
  {
    var n := RoundHalfEven(p * 100.0);
    assert Round2(p) == n as real / 100.0;
    if 0.0 <= p <= 100.0 {
      assert -1 < n < 10001;
    }
  }

  /** What entity `e` shows when the latest snapshot is `s`. */
  function State(e: Entity, s: Snapshot): (r: Reading)
    ensures e.kind == CpuUsage ==> r == Number(s.systemStatus.cpu)
    ensures e.kind == MemoryUsage && s.systemStatus.memory.total > 0 ==>
      r == Number(MemoryPercent(s.systemStatus.memory).value)
    ensures e.kind.DiskTemp? ==>
      forall i: nat | FirstNamed(s.systemInfo.disks, e.kind.diskName, i) ::
        r == Number(s.systemInfo.disks[i].temp)
    ensures e.kind.DiskFlag? ==>
      r == OnOff(DiskFlagOn(s.systemInfo.disks, e.kind.diskName, e.kind.flag))
    ensures r.OnOff? <==> e.kind.DiskFlag?
    ensures r == Unknown <==>
      || (e.kind == MemoryUsage && s.systemStatus.memory.total <= 0)
      || (e.kind.DiskTemp? &&
          forall i | 0 <= i < |s.systemInfo.disks| :: s.systemInfo.disks[i].name != e.kind.diskName)
  {
    var disks := s.systemInfo.disks;
    match e.kind
    case CpuUsage => Number(s.systemStatus.cpu)
    case MemoryUsage =>
      (match MemoryPercent(s.systemStatus.memory)
       case None => Unknown
       case Some(p) => Number(p))
    case DiskTemp(name) =>
      (match DiskTemperature(disks, name)
       case None => Unknown
       case Some(t) => Number(t))
    case DiskFlag(f, name) => OnOff(DiskFlagOn(disks, name, f))
  }

  /** No two disks of the list share a name. */
  predicate UniqueNames(disks: seq<Disk>) {
    forall i, j | 0 <= i < j < |disks| :: disks[i].name != disks[j].name
  }

  /** With unique names, searching for the name of a listed disk finds that very disk. */
  lemma FindMember(disks: seq<Disk>, d: Disk)
    requires UniqueNames(disks)
    requires d in disks
    ensures FindDisk(disks, d.name).Some? && disks[FindDisk(disks, d.name).value] == d
  {
    var k :| 0 <= k < |disks| && disks[k] == d;
    assert FirstNamed(disks, d.name, k);
  }

  /**
   * Two disk lists with the same disks and unique names agree on which disk
   * each name finds, whatever their order.
   */
  lemma FindSameDisk(d1: seq<Disk>, d2: seq<Disk>, name: string)
    requires UniqueNames(d1) && UniqueNames(d2)
    requires forall d :: d in d1 <==> d in d2
    ensures FindDisk(d1, name).None? <==> FindDisk(d2, name).None?
    ensures FindDisk(d1, name).Some? ==>
      d1[FindDisk(d1, name).value] == d2[FindDisk(d2, name).value]
  {
    if FindDisk(d1, name).Some? {
      FindMember(d2, d1[FindDisk(d1, name).value]);
    } else if FindDisk(d2, name).Some? {
      FindMember(d1, d2[FindDisk(d2, name).value]);
    }
  }

  /**
   * Reordering the disk list of a snapshot (a permutation, names unique)
   * changes no sensor's reading: the per-disk sensors find their disk by
   * name, not by position.
   */
  lemma ReorderedDisks(e: Entity, s1: Snapshot, s2: Snapshot)
    requires s1.systemStatus == s2.systemStatus
    requires multiset(s1.systemInfo.disks) == multiset(s2.systemInfo.disks)
    requires UniqueNames(s1.systemInfo.disks) && UniqueNames(s2.systemInfo.disks)
    ensures State(e, s1) == State(e, s2)
  {
    var d1, d2 := s1.systemInfo.disks, s2.systemInfo.disks;
    forall d ensures d in d1 <==> d in d2 {
      assert d in d1 <==> d in multiset(d1);
      assert d in d2 <==> d in multiset(d2);
    }
    if e.kind.DiskTemp? || e.kind.DiskFlag? {
      FindSameDisk(d1, d2, e.kind.diskName);
    }
  }

  /**
   * When a disk list shrinks (every remaining disk was in the old list, whose
   * names were unique), a per-disk sensor whose disk is still there reads
   * the same as before, and one whose disk is gone reads its default:
   * unknown for the temperature, off for a flag.
   */
  lemma ShrunkDisks(e: Entity, s1: Snapshot, s2: Snapshot)
    requires e.kind.DiskTemp? || e.kind.DiskFlag?
    requires UniqueNames(s1.systemInfo.disks)
    requires forall d | d in s2.systemInfo.disks :: d in s1.systemInfo.disks
    ensures (exists i | 0 <= i < |s2.systemInfo.disks| :: s2.systemInfo.disks[i].name == e.kind.diskName)
      ==> State(e, s2) == State(e, s1)
    ensures (forall i | 0 <= i < |s2.systemInfo.disks| :: s2.systemInfo.disks[i].name != e.kind.diskName)
      ==> State(e, s2) == if e.kind.DiskTemp? then Unknown else OnOff(false)
  {
    var d1, d2, name := s1.systemInfo.disks, s2.systemInfo.disks, e.kind.diskName;
    if FindDisk(d2, name).Some? {
      var d := d2[FindDisk(d2, name).value];
      FindMember(d1, d);
    }
  }
}
