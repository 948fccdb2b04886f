/** Value types shared by the power-statistics board configuration: the
    channel catalog and measurement records of the energy meter, the
    result record of an energy consumer, and the fixed-width integers
    these records carry. */
module PowerStatsTypes {

  datatype Option<+T> = None | Some(value: T)

  type int32 = x: int | -0x8000_0000 <= x < 0x8000_0000
  type int64 = x: int | -0x8000_0000_0000_0000 <= x < 0x8000_0000_0000_0000
  type uint64 = x: int | 0 <= x < 0x1_0000_0000_0000_0000

  /** The consumer kinds this board registers. */
  datatype EnergyConsumerType = Other | Bluetooth | CpuCluster | Gnss | MobileRadio | Wifi

  /** One entry of the energy meter's channel catalog. */
  datatype Channel = Channel(id: int32, name: string)

  /** One reading of a meter channel: cumulative energy in microwatt-seconds. */
  datatype EnergyMeasurement = EnergyMeasurement(id: int32, timestampMs: int64, energyUWs: int64)

  /** What an energy consumer reports. The energy is an unbounded integer:
      the 64-bit running sum it comes from is not modelled as wrapping. */
  datatype EnergyConsumerResult = EnergyConsumerResult(timestampMs: int64, energyUWs: int)
}
