/**
 * The snapshot of the NAS that one refresh cycle assembles from the nine
 * endpoint calls of the wire client, and the refresh cycle itself
 * (`async_update_data` in custom_components/mycloud/sensor.py).
 */
module Snapshot {
  import opened Wrappers

  /** Endpoint payloads the sensors never look into, kept as the client's raw text. */
  type Raw = string

  /** One entry of `system_info["disks"]`. */
  datatype Disk = Disk(
    name: string,     // "name": the key the per-disk sensors look the disk up by
    sn: string,       // "sn": the disk's serial number, the key of its device
    model: string,    // "model"
    rev: string,      // "rev": hardware revision
    temp: real,       // "temp": temperature as the client reports it
    healthy: bool,
    sleep: bool,
    failed: bool,
    overTemp: bool    // "over_temp"
  )

  /** The part of `system_info` the sensors read. */
  datatype SystemInfo = SystemInfo(disks: seq<Disk>)

  /** `system_status["memory"]`: byte counts. */
  datatype Memory = Memory(total: int, unused: int)

  /** `system_status`. */
  datatype SystemStatus = SystemStatus(cpu: real, memory: Memory)

  /** `device_info`. */
  datatype DeviceInfo = DeviceInfo(serialNumber: string, name: string, description: string)

  /** `system_version`. */
  datatype SystemVersion = SystemVersion(firmware: string)

  /** The record one successful refresh publishes: all nine endpoint results. */
  datatype Snapshot = Snapshot(
    systemInfo: SystemInfo,
    shareNames: Raw,
    systemStatus: SystemStatus,
    networkInfo: Raw,
    deviceInfo: DeviceInfo,
    systemVersion: SystemVersion,
    latestVersion: Raw,
    accounts: Raw,
    alerts: Raw
  )

  /**
   * What each of the nine client calls of one cycle returns or raises
   * (the error is the text of the raised exception). The calls are opaque:
   * the model receives their outcomes as data.
   */
  datatype Replies = Replies(
    systemInfo: Result<SystemInfo, string>,
    shareNames: Result<Raw, string>,
    systemStatus: Result<SystemStatus, string>,
    networkInfo: Result<Raw, string>,
    deviceInfo: Result<DeviceInfo, string>,
    systemVersion: Result<SystemVersion, string>,
    latestVersion: Result<Raw, string>,
    accounts: Result<Raw, string>,
    alerts: Result<Raw, string>
  )

  /** The single condition a failed cycle reports to the host. */
  datatype UpdateFailed = UpdateFailed(message: string)

  const FailurePrefix := "Error fetching data: "

  function ErrorOf<T>(r: Result<T, string>): seq<string> {
    if r.Err? then [r.error] else []
  }

  /** The errors of the nine calls, in the order the cycle awaits them. */
  function Errors(c: Replies): seq<string> {
    ErrorOf(c.systemInfo) + ErrorOf(c.shareNames) + ErrorOf(c.systemStatus)
    + ErrorOf(c.networkInfo) + ErrorOf(c.deviceInfo) + ErrorOf(c.systemVersion)
    + ErrorOf(c.latestVersion) + ErrorOf(c.accounts) + ErrorOf(c.alerts)
  }

  function Failed(err: string): Result<Snapshot, UpdateFailed> {
    Err(UpdateFailed(FailurePrefix + err))
  }

  /**
   * One refresh cycle: await the nine calls in turn; the first one that
   * raises ends the cycle with one UpdateFailed carrying its text, and
   * otherwise all nine results go into one snapshot.
   */
  function Fetch(c: Replies): (r: Result<Snapshot, UpdateFailed>)
    ensures r.Ok? <==> Errors(c) == []
    ensures r.Ok? ==>
      && c.systemInfo == Ok(r.value.systemInfo)
      && c.shareNames == Ok(r.value.shareNames)
      && c.systemStatus == Ok(r.value.systemStatus)
      && c.networkInfo == Ok(r.value.networkInfo)
      && c.deviceInfo == Ok(r.value.deviceInfo)
      && c.systemVersion == Ok(r.value.systemVersion)
      && c.latestVersion == Ok(r.value.latestVersion)
      && c.accounts == Ok(r.value.accounts)
      && c.alerts == Ok(r.value.alerts)
    ensures r.Err? ==> Errors(c) != [] && r.error == UpdateFailed(FailurePrefix + Errors(c)[0])
  {
    match c.systemInfo
    case Err(e) => Failed(e)
    case Ok(systemInfo) =>
    match c.shareNames
    case Err(e) => Failed(e)
    case Ok(shareNames) =>
    match c.systemStatus
    case Err(e) => Failed(e)
    case Ok(systemStatus) =>
    match c.networkInfo
    case Err(e) => Failed(e)
    case Ok(networkInfo) =>
    match c.deviceInfo
    case Err(e) => Failed(e)
    case Ok(deviceInfo) =>
    match c.systemVersion
    case Err(e) => Failed(e)
    case Ok(systemVersion) =>
    match c.latestVersion
    case Err(e) => Failed(e)
    case Ok(latestVersion) =>
    match c.accounts
    case Err(e) => Failed(e)
    case Ok(accounts) =>
    match c.alerts
    case Err(e) => Failed(e)
    case Ok(alerts) =>
      Ok(Snapshot(systemInfo, shareNames, systemStatus, networkInfo, deviceInfo,
                  systemVersion, latestVersion, accounts, alerts))
  }

  /** The replies of a cycle in which every call returns the corresponding part of `s`. */
  function AllOk(s: Snapshot): Replies {
    Replies(Ok(s.systemInfo), Ok(s.shareNames), Ok(s.systemStatus), Ok(s.networkInfo),
            Ok(s.deviceInfo), Ok(s.systemVersion), Ok(s.latestVersion), Ok(s.accounts),
            Ok(s.alerts))
  }

  /** A cycle in which every call succeeds yields exactly the snapshot of their results. */
  lemma FetchAllOk(s: Snapshot)
    ensures Fetch(AllOk(s)) == Ok(s)
  {
  }
}
