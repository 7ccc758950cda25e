/**
 * The sensor entities that setup derives from the first snapshot
 * (the entity-building part of `async_setup_entry` and the constructors of
 * the sensor classes in custom_components/mycloud/sensor.py): their unique
 * ids, display names, units and the host devices they are grouped under.
 */
module Sensors {
  import opened Wrappers
  import opened Snapshot

  const Manufacturer := "Western Digital"

  /** The four boolean health flags of a disk. */
  datatype Flag = Healthy | Sleep | Failed | OverTemp

  /**
   * Which sensor class an entity is. Per-disk sensors remember the name of
   * their disk (`_disk_name`), which is what they look the disk up by.
   */
  datatype Kind =
    | CpuUsage
    | MemoryUsage
    | DiskTemp(diskName: string)
    | DiskFlag(flag: Flag, diskName: string)

  /** The metric key that follows the owner's serial in a unique id. */
  function Key(k: Kind): string {
    match k
    case CpuUsage => "cpu_usage"
    case MemoryUsage => "memory_usage"
    case DiskTemp(_) => "disk_temp"
    case DiskFlag(Healthy, _) => "disk_healthy"
    case DiskFlag(Sleep, _) => "disk_sleep"
    case DiskFlag(Failed, _) => "disk_failed"
    case DiskFlag(OverTemp, _) => "disk_over_temp"
  }

  /** The label that follows the owner's display name in an entity's name. */
  function Label(k: Kind): string {
    match k
    case CpuUsage => "CPU Usage"
    case MemoryUsage => "Memory Usage"
    case DiskTemp(_) => "Temperature"
    case DiskFlag(Healthy, _) => "Healthy"
    case DiskFlag(Sleep, _) => "Sleeping"
    case DiskFlag(Failed, _) => "Failed"
    case DiskFlag(OverTemp, _) => "Over Temperature"
  }

  /** Unit of measurement; the binary sensors have none. */
  function Unit(k: Kind): Option<string> {
    match k
    case CpuUsage => Some("%")
    case MemoryUsage => Some("%")
    case DiskTemp(_) => Some("°C")
    case DiskFlag(_, _) => None
  }

  /** The device registry entry an entity is grouped under. */
  datatype DeviceEntry = DeviceEntry(
    identifiers: set<(string, string)>,
    name: string,
    manufacturer: string,
    model: string,
    swVersion: string,
    hwVersion: Option<string>,
    viaDevice: Option<(string, string)>
  )

  /** One sensor entity as setup creates it. */
  datatype Entity = Entity(
    kind: Kind,
    device: DeviceEntry,
    uniqueId: string,
    name: string,
    unit: Option<string>
  )

  /** The one naming scheme of every sensor: `{serial}_{key}` and `{owner name} {label}`. */
  function NewSensor(kind: Kind, device: DeviceEntry, serial: string, ownerName: string): Entity {
    Entity(kind, device, serial + "_" + Key(kind), ownerName + " " + Label(kind), Unit(kind))
  }

  /** The NAS itself, keyed by its serial number. */
  function SystemDevice(domain: string, s: Snapshot): DeviceEntry {
    DeviceEntry({(domain, s.deviceInfo.serialNumber)}, s.deviceInfo.name, Manufacturer,
                s.deviceInfo.description, s.systemVersion.firmware, None, None)
  }

  /** Display name of a disk's device. */
  function DiskDisplayName(s: Snapshot, d: Disk): string {
    s.deviceInfo.name + " Disk " + d.name
  }

  /** A disk, keyed by the disk's serial and linked to the NAS device. */
  function DiskDevice(domain: string, s: Snapshot, d: Disk): DeviceEntry {
    DeviceEntry({(domain, d.sn)}, DiskDisplayName(s, d), Manufacturer, d.model,
                s.systemVersion.firmware, Some(d.rev), Some((domain, s.deviceInfo.serialNumber)))
  }

  /** The two fixed sensors of the NAS: CPU, then memory. */
  function SystemSensors(domain: string, s: Snapshot): seq<Entity> {
    var dev := SystemDevice(domain, s);
    [NewSensor(CpuUsage, dev, s.deviceInfo.serialNumber, s.deviceInfo.name),
     NewSensor(MemoryUsage, dev, s.deviceInfo.serialNumber, s.deviceInfo.name)]
  }

  /** The five metrics of a disk, in the order setup creates their sensors. */
  function DiskKinds(diskName: string): seq<Kind> {
    [DiskTemp(diskName), DiskFlag(Healthy, diskName), DiskFlag(Sleep, diskName),
     DiskFlag(Failed, diskName), DiskFlag(OverTemp, diskName)]
  }

  /** The `k`-th of the five sensors of disk `d`. */
  function DiskSensor(domain: string, s: Snapshot, d: Disk, k: nat): Entity
    requires k < 5
  {
    NewSensor(DiskKinds(d.name)[k], DiskDevice(domain, s, d), d.sn, DiskDisplayName(s, d))
  }

  /** The five sensors of one disk. */
  function DiskSensors(domain: string, s: Snapshot, d: Disk): seq<Entity> {
    seq(5, k requires 0 <= k < 5 => DiskSensor(domain, s, d, k))
  }

  /** The sensors of the disks `ds`, disk after disk in list order. */
  function DiskSensorsOf(domain: string, s: Snapshot, ds: seq<Disk>): seq<Entity> {
    if ds == [] then []
    else DiskSensorsOf(domain, s, ds[..|ds| - 1]) + DiskSensors(domain, s, ds[|ds| - 1])
  }

  /** Every sensor setup registers for the snapshot `s`: two for the NAS, five per disk. */
  function Entities(domain: string, s: Snapshot): (es: seq<Entity>)
    ensures |es| == 2 + 5 * |s.systemInfo.disks|
  {
    DiskSensorsOfAt(domain, s, s.systemInfo.disks);
    SystemSensors(domain, s) + DiskSensorsOf(domain, s, s.systemInfo.disks)
  }

  /** Builds the sensor list the way setup does: the two system sensors, then five per disk. */
  method SetupEntities(domain: string, s: Snapshot) returns (sensors: seq<Entity>)
    ensures sensors == Entities(domain, s)
  {
    var system := SystemSensors(domain, s);
    sensors := system;
    var disks := s.systemInfo.disks;
    for i := 0 to |disks|
      invariant sensors == system + DiskSensorsOf(domain, s, disks[..i])
    {
      var added := DiskSensors(domain, s, disks[i]);
      ghost var done := DiskSensorsOf(domain, s, disks[..i]);
      DiskSensorsOfSnoc(domain, s, disks[..i], disks[i]);
      assert disks[..i] + [disks[i]] == disks[..i + 1];
      assert system + done + added == system + (done + added);
      sensors := sensors + added;
    }
    assert disks[..|disks|] == disks;
  }

  lemma DiskSensorsOfSnoc(domain: string, s: Snapshot, ds: seq<Disk>, d: Disk)
    ensures DiskSensorsOf(domain, s, ds + [d]) == DiskSensorsOf(domain, s, ds) + DiskSensors(domain, s, d)
  {
    assert (ds + [d])[..|ds|] == ds;
  }

  lemma DivMod5(j: int, n: int)
    requires 5 * n <= j < 5 * n + 5
    ensures j / 5 == n && j % 5 == j - 5 * n
  {
  }

  /** Sensor `j` of a disk list is the `(j % 5)`-th metric of disk `j / 5`. */
  lemma {:induction false} DiskSensorsOfAt(domain: string, s: Snapshot, ds: seq<Disk>)
    ensures |DiskSensorsOf(domain, s, ds)| == 5 * |ds|
    ensures forall j | 0 <= j < |DiskSensorsOf(domain, s, ds)| ::
      j / 5 < |ds| && DiskSensorsOf(domain, s, ds)[j] == DiskSensor(domain, s, ds[j / 5], j % 5)
  {
    if ds != [] {
      var init, last := ds[..|ds| - 1], ds[|ds| - 1];
      DiskSensorsOfAt(domain, s, init);
      var a, b := DiskSensorsOf(domain, s, init), DiskSensors(domain, s, last);
      assert DiskSensorsOf(domain, s, ds) == a + b;
      forall j | 0 <= j < |a| + |b|
        ensures j / 5 < |ds| && (a + b)[j] == DiskSensor(domain, s, ds[j / 5], j % 5)
      {
        if j < |a| {
          assert ds[j / 5] == init[j / 5];
        } else {
          DivMod5(j, |init|);
        }
      }
    }
  }

  /**
   * The registered list: CPU, memory, then for every disk in the order the
   * client returned them its five sensors (temperature, healthy, sleep,
   * failed, over-temperature).
   */
  lemma EntitiesOrder(domain: string, s: Snapshot)
    ensures var es, disks := Entities(domain, s), s.systemInfo.disks;
      && |es| == 2 + 5 * |disks|
      && es[0].kind == CpuUsage && es[1].kind == MemoryUsage
      && (forall j | 2 <= j < |es| ::
            (j - 2) / 5 < |disks| && es[j] == DiskSensor(domain, s, disks[(j - 2) / 5], (j - 2) % 5))
  {
    var es, disks := Entities(domain, s), s.systemInfo.disks;
    DiskSensorsOfAt(domain, s, disks);
    assert es[2..] == DiskSensorsOf(domain, s, disks);
  }

  /** Ids, names and devices of the two system sensors. */
  lemma SystemSensorNaming(domain: string, s: Snapshot)
    ensures var es, serial := Entities(domain, s), s.deviceInfo.serialNumber;
      && |es| >= 2
      && es[0].uniqueId == serial + "_cpu_usage" && es[0].name == s.deviceInfo.name + " CPU Usage"
      && es[1].uniqueId == serial + "_memory_usage" && es[1].name == s.deviceInfo.name + " Memory Usage"
      && es[0].device == es[1].device
      && es[0].device.identifiers == {(domain, serial)} && es[0].device.viaDevice == None
  {
    var serial := s.deviceInfo.serialNumber;
    assert serial + "_" + Key(CpuUsage) == serial + "_cpu_usage";
    assert serial + "_" + Key(MemoryUsage) == serial + "_memory_usage";
  }

  /** The NAS device entry: keyed by the NAS serial, with no parent device. */
  lemma SystemDeviceEntry(domain: string, s: Snapshot)
    ensures var dev := Entities(domain, s)[0].device;
      && dev.identifiers == {(domain, s.deviceInfo.serialNumber)}
      && dev.name == s.deviceInfo.name
      && dev.manufacturer == "Western Digital"
      && dev.model == s.deviceInfo.description
      && dev.swVersion == s.systemVersion.firmware
      && dev.hwVersion == None && dev.viaDevice == None
  {
  }

  /**
   * The device entry of disk `d`: keyed by the disk's serial, carrying its
   * model and hardware revision, linked to the NAS device.
   */
  lemma DiskDeviceEntry(domain: string, s: Snapshot, d: Disk, k: nat)
    requires k < 5
    ensures var dev := DiskSensor(domain, s, d, k).device;
      && dev.identifiers == {(domain, d.sn)}
      && dev.name == s.deviceInfo.name + " Disk " + d.name
      && dev.manufacturer == "Western Digital"
      && dev.model == d.model
      && dev.swVersion == s.systemVersion.firmware
      && dev.hwVersion == Some(d.rev)
      && dev.viaDevice == Some((domain, s.deviceInfo.serialNumber))
  {
  }

  /**
   * Ids, names and devices of the sensors of disk `d`: keyed by the disk's
   * serial, named after the NAS and the disk, grouped under a device that
   * points back at the NAS.
   */
  lemma DiskSensorNaming(domain: string, s: Snapshot, d: Disk, k: nat)
    requires k < 5
    ensures var e, kind := DiskSensor(domain, s, d, k), DiskKinds(d.name)[k];
      && e.kind == kind
      && e.uniqueId == d.sn + "_" + Key(kind)
      && e.name == s.deviceInfo.name + " Disk " + d.name + " " + Label(kind)
      && e.device.identifiers == {(domain, d.sn)}
      && e.device.name == s.deviceInfo.name + " Disk " + d.name
      && e.device.viaDevice == Some((domain, s.deviceInfo.serialNumber))
  {
  }

  /** Position of a metric among the seven; the disk name plays no part. */
  function Metric(k: Kind): nat {
    match k
    case CpuUsage => 0
    case MemoryUsage => 1
    case DiskTemp(_) => 2
    case DiskFlag(Healthy, _) => 3
    case DiskFlag(Sleep, _) => 4
    case DiskFlag(Failed, _) => 5
    case DiskFlag(OverTemp, _) => 6
  }

  /** Distinct metrics have distinct keys. */
  lemma KeyDeterminesMetric(k1: Kind, k2: Kind)
    requires Key(k1) == Key(k2)
    ensures Metric(k1) == Metric(k2)
  {
  }

  predicate NoUnderscore(x: string) {
    forall i | 0 <= i < |x| :: x[i] != '_'
  }

  /** Index of the first underscore of `x`, or `|x|` if there is none. */
  function FirstUnderscore(x: string): nat {
    if x == [] then 0 else if x[0] == '_' then 0 else 1 + FirstUnderscore(x[1..])
  }

  lemma {:induction false} FirstUnderscoreAfter(a: string, x: string)
    requires NoUnderscore(a)
    ensures FirstUnderscore(a + "_" + x) == |a|
  {
    if a != [] {
      assert (a + "_" + x)[1..] == a[1..] + "_" + x;
      FirstUnderscoreAfter(a[1..], x);
    }
  }

  /** An underscore-free prefix is recovered from `prefix + "_" + rest`, and so is the rest. */
  lemma SplitAtUnderscore(a: string, x: string, b: string, y: string)
    requires NoUnderscore(a) && NoUnderscore(b)
    requires a + "_" + x == b + "_" + y
    ensures a == b && x == y
  {
    var u, v := a + "_" + x, b + "_" + y;
    FirstUnderscoreAfter(a, x);
    FirstUnderscoreAfter(b, y);
    assert a == u[..|a|] && b == v[..|b|];
    assert x == u[|a| + 1..] && y == v[|b| + 1..];
  }

  /** Disk serials that no two disks share. */
  predicate DistinctSerials(ds: seq<Disk>) {
    forall i, j | 0 <= i < j < |ds| :: ds[i].sn != ds[j].sn
  }

  predicate DistinctIds(es: seq<Entity>) {
    forall a, b | 0 <= a < b < |es| :: es[a].uniqueId != es[b].uniqueId
  }

  /** The serial that starts the id of entity `j`: the NAS's for the first two, the disk's after. */
  function OwnerSerial(s: Snapshot, j: nat): string
    requires j < 2 + 5 * |s.systemInfo.disks|
  {
    if j < 2 then s.deviceInfo.serialNumber else s.systemInfo.disks[(j - 2) / 5].sn
  }

  /** Entity `j` is identified by its owner's serial and the position of its metric. */
  lemma IdParts(domain: string, s: Snapshot, j: nat)
    requires j < |Entities(domain, s)|
    ensures |Entities(domain, s)| == 2 + 5 * |s.systemInfo.disks|
    ensures var e := Entities(domain, s)[j];
      && e.uniqueId == OwnerSerial(s, j) + "_" + Key(e.kind)
      && Metric(e.kind) == if j < 2 then j else 2 + (j - 2) % 5
  {
    EntitiesOrder(domain, s);
    var e := Entities(domain, s)[j];
    if j >= 2 {
      var d := s.systemInfo.disks[(j - 2) / 5];
      DiskSensorNaming(domain, s, d, (j - 2) % 5);
    }
  }

  /** The last letter of an id is the last letter of its key: `e` exactly for the two NAS metrics. */
  lemma IdEnding(owner: string, k: Kind)
    ensures var id := owner + "_" + Key(k);
      |id| > 0 && (id[|id| - 1] == 'e' <==> Metric(k) < 2)
  {
    var id := owner + "_" + Key(k);
    assert id[|id| - 1] == Key(k)[|Key(k)| - 1];
  }

  /**
   * Two different positions of the list carry different ids when disk
   * serials are distinct and free of underscores; the NAS serial may be
   * anything, since NAS ids end in `_usage` and no disk key does.
   */
  lemma IdsDiffer(domain: string, s: Snapshot, a: nat, b: nat)
    requires forall i | 0 <= i < |s.systemInfo.disks| :: NoUnderscore(s.systemInfo.disks[i].sn)
    requires DistinctSerials(s.systemInfo.disks)
    requires a < b < |Entities(domain, s)|
    ensures Entities(domain, s)[a].uniqueId != Entities(domain, s)[b].uniqueId
  {
    var es := Entities(domain, s);
    IdParts(domain, s, a);
    IdParts(domain, s, b);
    if a < 2 && b < 2 {
      // `_cpu_usage` and `_memory_usage` after the same serial differ in length
      assert |es[a].uniqueId| < |es[b].uniqueId|;
    } else if a < 2 {
      IdEnding(OwnerSerial(s, a), es[a].kind);
      IdEnding(OwnerSerial(s, b), es[b].kind);
    } else if es[a].uniqueId == es[b].uniqueId {
      SplitAtUnderscore(OwnerSerial(s, a), Key(es[a].kind), OwnerSerial(s, b), Key(es[b].kind));
      KeyDeterminesMetric(es[a].kind, es[b].kind);
    }
  }

  /**
   * With underscore-free disk serials, the unique ids of the registered
   * sensors are pairwise distinct exactly when no two disks share a serial.
   */
  lemma UniqueIds(domain: string, s: Snapshot)
    requires forall i | 0 <= i < |s.systemInfo.disks| :: NoUnderscore(s.systemInfo.disks[i].sn)
    ensures DistinctIds(Entities(domain, s)) <==> DistinctSerials(s.systemInfo.disks)
  {
    var es, disks := Entities(domain, s), s.systemInfo.disks;
    EntitiesOrder(domain, s);
    if DistinctSerials(disks) {
      forall a, b | 0 <= a < b < |es| ensures es[a].uniqueId != es[b].uniqueId {
        IdsDiffer(domain, s, a, b);
      }
    } else {
      var i, j :| 0 <= i < j < |disks| && disks[i].sn == disks[j].sn;
      DivMod5(5 * i, i);
      DivMod5(5 * j, j);
      IdParts(domain, s, 2 + 5 * i);
      IdParts(domain, s, 2 + 5 * j);
      assert es[2 + 5 * i].uniqueId == es[2 + 5 * j].uniqueId;
    }
  }
}
