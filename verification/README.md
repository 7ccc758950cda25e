# WD My Cloud sensors: a Dafny model

This project models the sensor platform of the Home Assistant integration for Western Digital My Cloud NAS devices (`custom_components/mycloud/sensor.py`). The model has three parts:

- **Refresh cycle** (`Snapshot` module). `async_update_data` awaits nine client calls in turn: `system_info`, `share_names`, `system_status`, `network_info`, `device_info`, `system_version`, `latest_version`, `accounts` and `alerts`. It returns one record holding all nine results. The first call that raises ends the cycle with a single `UpdateFailed("Error fetching data: <error>")`. The client calls are opaque, so the model receives their outcomes as a `Replies` record of nine `Result` values. `Fetch` is the cycle.
- **Entity set-up** (`Sensors` module). From the first snapshot, `async_setup_entry` builds the NAS device and two system sensors (CPU, then memory). Then, for each disk in the order the client returned them, it builds a disk device and five sensors: temperature, healthy, sleeping, failed and over-temperature.
  - The disk device is keyed by the disk's serial. Its name is `<NAS name> Disk <disk name>`, and its `via_device` link points to the NAS serial.
  - Every unique id is `<serial>_<key>`, and every entity name is `<owner name> <label>`.
  - `SetupEntities` is the loop that builds the list. It is proved equal to the function `Entities`, and the lemmas about layout and ids are stated over that function.
- **Readings** (`Readings` module). These are the `state` and `is_on` properties. CPU passes through. Memory is the used percentage rounded to two decimals, or `None` unless the total is positive. Each per-disk sensor searches the current snapshot's disk list for the first disk with its stored name. It reads `None` (temperature) or `False` (flags) when no disk has that name. `State` dispatches on the kind of entity.

Numbers the NAS reports (CPU load, temperature) are `real`; byte counts are `int`. The integration's `DOMAIN` constant is defined in `const.py`, which is not part of this model. It is a parameter `domain` of the set-up functions.

Notes on the code:
- The memory reading is `None` for every `total <= 0`, not only for `total == 0`.
- There are no volume sensors, storage-size sensors or disk-size sensor; each disk carries five sensors.
- The sleep sensor's label is "Sleeping".

## Model

| member | source | states |
|---|---|---|
| `Snapshot.Fetch` | custom_components/mycloud/sensor.py:29-46 | The cycle succeeds exactly when none of the nine calls raises, and the snapshot then holds each call's result in its own field. Otherwise it yields one `UpdateFailed` whose message is "Error fetching data: " followed by the error of the first raising call in await order. No partial record exists. |
| `Snapshot.FetchAllOk` | custom_components/mycloud/sensor.py:31-43 | When every call returns its part of a snapshot, the cycle yields exactly that snapshot. |
| `Sensors.SetupEntities` | custom_components/mycloud/sensor.py:71-98 | The loop that appends the system sensors and then five sensors per disk builds exactly the entity list `Entities`. |
| `Sensors.EntitiesOrder` | custom_components/mycloud/sensor.py:71-98 | The list has `2 + 5·|disks|` entries: CPU, memory, then for each disk in returned order its temperature, healthy, sleep, failed and over-temperature sensors. Entry `2 + 5i + k` is the k-th sensor of disk i. |
| `Sensors.Entities` | custom_components/mycloud/sensor.py:71-98 | The registered list has exactly two entries for the NAS and five per disk. |
| `Sensors.DiskSensorsOfAt` | custom_components/mycloud/sensor.py:77-98 | The per-disk part of the list has `5·|disks|` entries, and entry j is metric `j % 5` of disk `j / 5`. |
| `Sensors.SystemSensorNaming` | custom_components/mycloud/sensor.py:112-149 | The two system sensors have ids `<serial>_cpu_usage` and `<serial>_memory_usage` and names `<NAS name> CPU Usage` and `<NAS name> Memory Usage`. Both share the NAS device, which is keyed by `(domain, serial)` and has no parent. |
| `Sensors.SystemDeviceEntry` | custom_components/mycloud/sensor.py:63-69 | The NAS device is keyed by `(domain, serial)`, is named after the NAS, has manufacturer "Western Digital", the NAS description as model and its firmware as software version, and has neither hardware version nor parent. |
| `Sensors.DiskDeviceEntry` | custom_components/mycloud/sensor.py:82-90 | A disk's device is keyed by `(domain, disk sn)`, is named `<NAS name> Disk <disk name>`, has manufacturer "Western Digital", the disk's model, the NAS firmware, the disk's revision as hardware version, and `via_device = (domain, NAS serial)`. |
| `Sensors.DiskSensorNaming` | custom_components/mycloud/sensor.py:161-240 | Every disk sensor has id `<disk sn>_<key>` and name `<NAS name> Disk <disk name> <label>`. Its device is keyed by `(domain, disk sn)`, is named `<NAS name> Disk <disk name>`, and has `via_device = (domain, NAS serial)`. |
| `Sensors.KeyDeterminesMetric` | custom_components/mycloud/sensor.py:129-238 | The seven metric keys are pairwise different. |
| `Sensors.SplitAtUnderscore` | custom_components/mycloud/sensor.py:116 | An id `<prefix>_<rest>` whose prefix has no underscore determines both prefix and rest. |
| `Sensors.IdParts` | custom_components/mycloud/sensor.py:113-117 | Entity j's id is its owner's serial (the NAS for j < 2, disk `(j-2)/5` after that), then `_`, then the key of the metric at that position. |
| `Sensors.IdEnding` | custom_components/mycloud/sensor.py:129-238 | An id ends in `e` exactly when its metric is CPU or memory usage: no disk key ends like `_usage`. |
| `Sensors.IdsDiffer` | custom_components/mycloud/sensor.py:116-238 | With distinct, underscore-free disk serials, any two positions of the list carry different ids, whatever the NAS serial. |
| `Sensors.UniqueIds` | custom_components/mycloud/sensor.py:71-238 | With underscore-free disk serials and any NAS serial, the registered ids are pairwise distinct if and only if no two disks share a serial. |
| `Readings.FindDisk` | custom_components/mycloud/sensor.py:176-180 | The search finds nothing exactly when no disk has the name. Otherwise it returns the first position whose disk has that name. |
| `Readings.Lookup` | custom_components/mycloud/sensor.py:176-179 | The disk found is the disk at the first position with that name, and none exists exactly when no disk has that name. |
| `Readings.DiskTemperature` | custom_components/mycloud/sensor.py:174-180 | The temperature is the `temp` of the first disk with the stored name. It is `None` exactly when no disk has that name. |
| `Readings.DiskFlagOn` | custom_components/mycloud/sensor.py:191-248 | Healthy, sleep, failed and over-temperature each read the flag of the first disk with the stored name, and read `False` when no disk has it. |
| `Readings.RoundHalfEven` | custom_components/mycloud/sensor.py:158 | The result is an integer within 1/2 of the argument, and the even one on a tie. |
| `Readings.Round2` | custom_components/mycloud/sensor.py:158 | The result is a multiple of 0.01 within 0.005 of the argument, and on a tie the even multiple. |
| `Readings.PercentInRange` | custom_components/mycloud/sensor.py:155-158 | With `0 <= used <= total`, `used / total * 100` lies in 0..100. |
| `Readings.Round2InRange` | custom_components/mycloud/sensor.py:158 | Rounding a value in 0..100 to two decimals stays in 0..100. |
| `Readings.MemoryPercent` | custom_components/mycloud/sensor.py:152-159 | The reading is `None` exactly when `total <= 0`. Otherwise it is `(total − unused) / total · 100` rounded to two decimals by `Round2`, hence within 0.005 of `(total − unused) / total · 100`, and it lies in 0..100 whenever `0 <= unused <= total`. |
| `Readings.State` | custom_components/mycloud/sensor.py:135-248 | CPU shows `system_status.cpu` unchanged; memory with a positive total shows its rounded percentage; a temperature shows the `temp` of the first disk with its name; a flag sensor shows that flag's lookup. Only the four flags are binary. A reading is unknown exactly for memory with `total <= 0`, or for a temperature whose disk is absent. |
| `Readings.FindMember` | custom_components/mycloud/sensor.py:176-179 | With unique disk names, searching for the name of any listed disk finds that very disk. |
| `Readings.FindSameDisk` | custom_components/mycloud/sensor.py:176-179 | Two lists holding the same disks, each with unique names, find the same disk for every name, or nothing in both. |
| `Readings.ReorderedDisks` | custom_components/mycloud/sensor.py:174-248 | Permuting a snapshot's disk list (names unique) changes no sensor's reading, because lookup is by name, not position. |
| `Readings.ShrunkDisks` | custom_components/mycloud/sensor.py:174-248 | After the disk list shrinks, a per-disk sensor whose disk remains reads as before. One whose disk is gone reads unknown (temperature) or off (flags), and no error is raised. |

Reading the same snapshot twice yields the same values because every reading is a function of the entity and the snapshot.

## Left out

- Host scheduling is not modelled: `DataUpdateCoordinator`, `SCAN_INTERVAL`, `async_refresh` and `async_add_entities`. This is host behaviour. So is keeping the previous snapshot after a failed cycle, which this code does not implement.
- The case where the first refresh fails and `coordinator.data` is unset before set-up reads it is not modelled. What happens then is decided by the host.
- Client lifecycle is not modelled: `client.__aenter__`, the cleanup stored in `hass.data` and `async_unload_entry`. The client's nine calls are opaque; their outcomes are inputs.
- Missing dictionary keys are not modelled. In the code, a reply without `serial_number`, `disks`, `name` and so on raises `KeyError`; the model's records always carry every field the code reads.
- Payloads the sensors never look into (`share_names`, `network_info`, `latest_version`, `accounts`, `alerts`) are kept as raw text. `system_info` carries only its disk list.
- The failure path's `_LOGGER.error` call is not modelled: logging is output only.
- Only errors the client raises as `Exception` subclasses are modelled as failed calls. A `BaseException` such as task cancellation escapes the cycle unwrapped in the code; the model has no such outcome.
- Icons, `device_class` and `state_class` are not modelled; they are presentation attributes with no logic.
- Serials are taken to be strings. The f-string conversion of other values is not modelled.
- The config flow, the `__init__.py` set-up of both integration folders and the `wdnas_hacs` API wrapper are not part of this model. They are configuration glue and a thin client wrapper.
- `Readings.Round2`: states Python's `round(x, 2)` on exact real values with ties to even. It does not model binary floating-point representation, so results on float inputs can differ in the last place.
- `Readings.MemoryPercent`: computes the percentage over exact reals, not IEEE doubles, for the same reason.
