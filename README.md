# Power statistics board configuration (gs201) — Dafny model

This project models the parts of the gs201 power-statistics board configuration that have logic of their own. The rest of that file only wires literal tables into provider classes that live elsewhere.

- **The placeholder Wi-Fi/Bluetooth energy consumer** (`PlaceholderConsumer`). When constructed, it looks up the first energy-meter channel named `VSYS_PWR_WLAN_BT`. If there is none, it stores `-1`. Each query then reads that one channel and sums the returned energies. It reports half of the sum (the source's `>> 1`, marked there as a temporary hack to be removed) together with the timestamp of the last measurement. A failed meter read reports nothing. With no channel, the meter is not read and a zero result is reported. The consumer is a class: the constructor's search loop and the query's accumulation loop are imperative methods. Each is proved against specification functions, whose properties are proved as lemmas.
- **The unit transforms** (`UnitTransforms`). The ACPM counters in nanoseconds and the modem, GNSS and Wi-Fi counters in microseconds are reported in milliseconds, by unsigned 64-bit division that truncates.
- **The state-residency configurations** (`StateResidencyConfigs`). These are the literal per-state tables: line prefixes plus a transform for each time field. The model proves that every transform sits behind a prefix naming the unit it converts from: the nanosecond transform after `_ns:`, the microsecond transform after `_usec:`. Fields without a transform are counts or `msec:` values. Since a prefix names only one unit, the prefix decides the transform.
- **The CPU-cluster and power-domain entity tables** (`EntityTables`). The source builds them in two loops over constant name lists. A CPU entity's header is its name. A power domain's header is its name followed by `:`. Both name lists are pairwise distinct, and so are the headers.

The energy meter is the aggregator's `getEnergyMeterInfo`/`readEnergyMeter`. It is given to the model as data:
- The channel catalog is a constructor parameter.
- A meter read is a function from the list of requested channel ids to `Some(measurements)` or `None` (failure).

Integers are mathematical. The source's widths appear as subset types: `int32` channel ids, `int64` measurement fields, `uint64` transform arguments. The right shift of the signed sum is an arithmetic shift, which is a floor division by 2.

## Model

| member | source | states |
|---|---|---|
| `PlaceholderConsumer.FirstChannelNamed` | powerstats/Gs201CommonDataProviders.cpp:57-62 | The result is the index of the first channel with the given name, or `None` exactly when no channel has that name. |
| `PlaceholderConsumer.PlaceholderEnergyConsumer.constructor` | powerstats/Gs201CommonDataProviders.cpp:52-63 | The constructor keeps the type and name. `mChannelId` becomes the id of the first `VSYS_PWR_WLAN_BT` channel in the catalog, or -1 when there is none. The loop stops at the first match. |
| `PlaceholderConsumer.PlaceholderEnergyConsumer.GetInfo` | powerstats/Gs201CommonDataProviders.cpp:64 | Returns the consumer's fixed type and the same name `getConsumerName` returns. |
| `PlaceholderConsumer.PlaceholderEnergyConsumer.GetConsumerName` | powerstats/Gs201CommonDataProviders.cpp:86-88 | Returns the name given at construction. |
| `PlaceholderConsumer.PlaceholderEnergyConsumer.GetEnergyConsumed` | powerstats/Gs201CommonDataProviders.cpp:66-84 | With `mChannelId == -1` the result does not depend on the meter: it is present with timestamp 0 and energy 0. Otherwise the meter read requests exactly `[mChannelId]`, and the result is `ResultOfRead` of that read. The method has no `modifies` clause, so `mChannelId`, the type and the name are the same after every query. |
| `PlaceholderConsumer.ResultOfRead` | powerstats/Gs201CommonDataProviders.cpp:71-83 | A failed read gives no result, and a successful one always gives a result. The timestamp is that of the last measurement, or 0 for an empty list. The energy `e` satisfies `2e <= S < 2e + 2`, where `S` is the sum of all measured energies. |
| `PlaceholderConsumer.ShiftRightByOne` | powerstats/Gs201CommonDataProviders.cpp:83 | The shifted value `r` of a sum `s` satisfies `2r <= s < 2r + 2`, for negative sums too. |
| `PlaceholderConsumer.AddPlaceholderEnergyConsumers` | powerstats/Gs201CommonDataProviders.cpp:97-102 | Builds two distinct new consumers, (Wifi, "Wifi") and (Bluetooth, "BT"). Each constructor reads the channel catalog on its own, so each gets its own catalog parameter and lands on the channel looked up in it. When both reads return the same catalog, the two consumers share one channel. |
| `PlaceholderConsumer.TotalEnergyAppend` | powerstats/Gs201CommonDataProviders.cpp:72-75 | The accumulated energy of a concatenation is the sum of the two parts' energies. |
| `PlaceholderConsumer.TotalEnergyPermutation` | powerstats/Gs201CommonDataProviders.cpp:72-75 | The accumulated energy is the same for any reordering of the returned measurements. |
| `PlaceholderConsumer.TotalEnergyNonNegative` | powerstats/Gs201CommonDataProviders.cpp:72-75 | Non-negative cumulative energies have a non-negative sum. |
| `PlaceholderConsumer.ReportedEnergyWithinRail` | powerstats/Gs201CommonDataProviders.cpp:72-83 | With non-negative energies, the reported energy is between 0 and the rail's full sum. |
| `PlaceholderConsumer.TwoReadingScenario` | powerstats/Gs201CommonDataProviders.cpp:72-83 | Readings of 100 at 1000 ms and 301 at 1500 ms report 200 at 1500 ms. |
| `UnitTransforms.NsToMs` | powerstats/Gs201CommonDataProviders.cpp:214 | For the ACPM transform (also at lines 287 and 505, with divisor `NS_TO_MS` = 1000000 as declared at lines 210, 285 and 503), `r * 1000000 <= a < (r + 1) * 1000000`: division truncated toward zero. |
| `UnitTransforms.UsToMs` | powerstats/Gs201CommonDataProviders.cpp:352-356 | For the microsecond transform (modem; the same function at lines 389 and 454), `r * 1000 <= a < (r + 1) * 1000`. |
| `UnitTransforms.Apply` | powerstats/Gs201CommonDataProviders.cpp:454 | Every transform returns no more than its input and maps anything below 1000 to 0. |
| `UnitTransforms.TransformBoundaries` | powerstats/Gs201CommonDataProviders.cpp:214 | 0 ns and 999999 ns give 0 ms, and 1000000 ns gives 1 ms. 999 µs gives 0 ms, 1000 µs gives 1 ms and 2000 µs gives 2 ms. |
| `UnitTransforms.NsToMsMonotone` | powerstats/Gs201CommonDataProviders.cpp:287 | A larger nanosecond counter never reports fewer milliseconds. |
| `UnitTransforms.UsToMsMonotone` | powerstats/Gs201CommonDataProviders.cpp:389 | A larger microsecond counter never reports fewer milliseconds. |
| `StateResidencyConfigs.ReportedValue` | powerstats/Gs201CommonDataProviders.cpp:465-471 | A `Field` is taken to mean what the generic state-residency provider does with it; that provider is not part of this model. On that reading, an unsupported field, such as the Wi-Fi PCIe last-entry time declared here, reports nothing. A supported field with no transform reports its raw value. A reported value never exceeds the raw counter. |
| `StateResidencyConfigs.AllConfigsReportMilliseconds` | powerstats/Gs201CommonDataProviders.cpp:212-245 | This covers all eleven state configurations built in the file: three for the SoC, and one each for CPU, modem, GNSS, PCIe, Wi-Fi, Wi-Fi PCIe, power domain and NFC. In each, the nanosecond transform appears only after a `_ns:` prefix and the microsecond transform only after a `_usec:` prefix. Fields with no transform are counts or `msec:` values. |
| `StateResidencyConfigs.PrefixNamesOneUnit` | powerstats/Gs201CommonDataProviders.cpp:212-224 | No prefix ends in the suffixes of two different units. |
| `StateResidencyConfigs.TransformDecidedByPrefix` | powerstats/Gs201CommonDataProviders.cpp:354-366 | In a field whose units agree, the nanosecond transform is present exactly when the prefix names nanoseconds. Likewise the microsecond transform exactly when it names microseconds, and no transform exactly for counts and milliseconds. |
| `StateResidencyConfigs.SocLpmUnits` | powerstats/Gs201CommonDataProviders.cpp:215-224 | The SoC LPM configuration's transforms match its prefixes' units. |
| `StateResidencyConfigs.SocDownUnits` | powerstats/Gs201CommonDataProviders.cpp:225-234 | Likewise for the MIF/SLC down configuration. |
| `StateResidencyConfigs.SocReqUnits` | powerstats/Gs201CommonDataProviders.cpp:235-245 | Likewise for the MIF/SLC request configuration. |
| `StateResidencyConfigs.CpuClusterUnits` | powerstats/Gs201CommonDataProviders.cpp:288-297 | Likewise for the CPU down configuration. |
| `StateResidencyConfigs.ModemPowerUnits` | powerstats/Gs201CommonDataProviders.cpp:357-366 | Likewise for the modem configuration. |
| `StateResidencyConfigs.GnssUnits` | powerstats/Gs201CommonDataProviders.cpp:391-400 | Likewise for the GNSS configuration. |
| `StateResidencyConfigs.PcieUnits` | powerstats/Gs201CommonDataProviders.cpp:420-427 | The PCIe configuration, in milliseconds already, has no transform. |
| `StateResidencyConfigs.WifiUnits` | powerstats/Gs201CommonDataProviders.cpp:455-464 | Likewise for the Wi-Fi configuration. |
| `StateResidencyConfigs.WifiPcieUnits` | powerstats/Gs201CommonDataProviders.cpp:465-471 | Likewise for the Wi-Fi PCIe configuration. |
| `StateResidencyConfigs.PowerDomainUnits` | powerstats/Gs201CommonDataProviders.cpp:506-515 | Likewise for the power-domain configuration. |
| `StateResidencyConfigs.NfcUnits` | powerstats/Gs201CommonDataProviders.cpp:596-603 | The NFC configuration, in milliseconds already, has no transform. |
| `StateResidencyConfigs.ModemScenario` | powerstats/Gs201CommonDataProviders.cpp:356-366 | With the modem configuration, a count of 5 reports 5 and a duration of 2000 µs reports 2 ms. The Wi-Fi PCIe last-entry field reports nothing. |
| `EntityTables.EntityConfigs` | powerstats/Gs201CommonDataProviders.cpp:303-308 | The table has one entity per name, in order. Each entity has that name, the header the rule derives from it, and the shared state configuration and headers. |
| `EntityTables.BuildEntityConfigs` | powerstats/Gs201CommonDataProviders.cpp:521-528 | The append loop builds exactly `EntityConfigs` of its names. |
| `EntityTables.HeaderOfInjective` | powerstats/Gs201CommonDataProviders.cpp:527 | Different names never get the same header, under either rule. |
| `EntityTables.EntityConfigsUnique` | powerstats/Gs201CommonDataProviders.cpp:304-307 | Distinct names give a table with no repeated entity name and no repeated header. |
| `EntityTables.CpuClusterNamesDistinct` | powerstats/Gs201CommonDataProviders.cpp:304-305 | The 11 core/cluster names are pairwise distinct. |
| `EntityTables.PowerDomainNamesDistinct` | powerstats/Gs201CommonDataProviders.cpp:522-525 | The 20 power-domain names are pairwise distinct. |
| `EntityTables.CpuClusterTable` | powerstats/Gs201CommonDataProviders.cpp:299-308 | The CPU table has 11 entities. Every header equals the entity's name, and names and headers are all unique. |
| `EntityTables.PowerDomainTable` | powerstats/Gs201CommonDataProviders.cpp:517-528 | The power-domain table has 20 entities. Every header is the name followed by `:`, and names and headers are all unique. |

## Left out

- Registration with the aggregator (`addStateResidencyDataProvider`, `addEnergyConsumer`, `setEnergyMeterDataProvider`): that code is not part of this model. The model builds what is registered but not the act of registering.
- The collaborator providers and consumers (`AocStateResidencyDataProvider`, `DvfsStateResidencyDataProvider`, `GenericStateResidencyDataProvider`, `generateGenericStateResidencyConfigs`, `UfsStateResidencyDataProvider`, `DevfreqStateResidencyDataProvider`, `IioEnergyMeterDataProvider`, `PowerStatsEnergyConsumer::createMeterConsumer`/`createMeterAndAttrConsumer`): their code is not part of this model. An entity record keeps the two arguments passed to `generateGenericStateResidencyConfigs`, not the states it generates. How a provider parses the statistics text is not modelled.
- `PixelStateResidencyDataProvider` and its `start()`: this is cross-process callback registration and concurrency.
- The literal tables that only feed collaborators are not modelled: AoC core, voltage and monitor states, DVFS frequency tables, the SoC, modem, GNSS, PCIe, Wi-Fi and NFC entity name/header pairs, meter device names and GPU/TPU coefficient maps. No behaviour of this file depends on them.
- Sysfs and device paths, `LOG(ERROR)` output, and the call order in `addGs201CommonDataProviders`: these are I/O and plumbing.
- The status returned by `getEnergyMeterInfo` is ignored by the source. The model takes whatever catalog results, so an empty catalog covers a failed lookup.
- `PlaceholderConsumer.PlaceholderEnergyConsumer.GetEnergyConsumed`: does not model 64-bit overflow of the running sum. The sum is an unbounded integer, because signed overflow in the source is undefined behaviour rather than wrap-around.
- `PlaceholderConsumer.ResultOfRead`: the reported energy is likewise an unbounded integer, not an `int64`.
- The `>> 1` halving is modelled as written. The source marks it as a temporary measure, to be removed once Wi-Fi and Bluetooth energy models exist.
- A `VSYS_PWR_WLAN_BT` channel whose id is -1 is indistinguishable from "no channel". The model keeps this behaviour of the source.
