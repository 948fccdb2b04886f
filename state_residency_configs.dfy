/** The literal state-residency configurations the board passes to its
    generic state-residency providers. Each configuration names, for one
    kind of power state, the line prefixes that introduce its entry count,
    its total time and its last-entry time in the kernel's statistics text,
    and the unit transform applied to each time value. The parsing itself
    belongs to the provider, which is not part of this model. */
module StateResidencyConfigs {
  import opened PowerStatsTypes
  import opened UnitTransforms

  /** One counter of a state: not read at all, or read after `prefix` and
      passed through `transform` when one is given. */
  datatype Field = Unsupported | Supported(prefix: string, transform: Option<Transform>)

  datatype StateResidencyConfig = StateResidencyConfig(entryCount: Field, totalTime: Field, lastEntry: Field)

  /** SoC low-power modes (ACPM, nanoseconds). */
  const SocLpmStateConfig := StateResidencyConfig(
    Supported("success_count:", None),
    Supported("total_time_ns:", Some(AcpmNsToMs)),
    Supported("last_entry_time_ns:", Some(AcpmNsToMs)))

  /** MIF and SLC down states (ACPM, nanoseconds). */
  const SocDownStateConfig := StateResidencyConfig(
    Supported("down_count:", None),
    Supported("total_down_time_ns:", Some(AcpmNsToMs)),
    Supported("last_down_time_ns:", Some(AcpmNsToMs)))

  /** MIF and SLC up-requests (ACPM, nanoseconds). */
  const SocReqStateConfig := StateResidencyConfig(
    Supported("req_up_count:", None),
    Supported("total_req_up_time_ns:", Some(AcpmNsToMs)),
    Supported("last_req_up_time_ns:", Some(AcpmNsToMs)))

  /** CPU core and cluster down states (ACPM, nanoseconds). */
  const CpuClusterStateConfig := StateResidencyConfig(
    Supported("down_count:", None),
    Supported("total_down_time_ns:", Some(AcpmNsToMs)),
    Supported("last_down_time_ns:", Some(AcpmNsToMs)))

  /** Modem sleep state (microseconds). */
  const ModemPowerStateConfig := StateResidencyConfig(
    Supported("count:", None),
    Supported("duration_usec:", Some(UsecToMs)),
    Supported("last_entry_timestamp_usec:", Some(UsecToMs)))

  /** GNSS on/off states (microseconds). */
  const GnssStateConfig := StateResidencyConfig(
    Supported("count:", None),
    Supported("duration_usec:", Some(UsecToMs)),
    Supported("last_entry_timestamp_usec:", Some(UsecToMs)))

  /** PCIe link states of the modem and Wi-Fi controllers (already milliseconds). */
  const PcieStateConfig := StateResidencyConfig(
    Supported("Cumulative count:", None),
    Supported("Cumulative duration msec:", None),
    Supported("Last entry timestamp msec:", None))

  /** Wi-Fi awake/asleep states (microseconds). */
  const WifiStateConfig := StateResidencyConfig(
    Supported("count:", None),
    Supported("duration_usec:", Some(UsecToMs)),
    Supported("last_entry_timestamp_usec:", Some(UsecToMs)))

  /** Wi-Fi PCIe link states (microseconds, no last-entry time). */
  const WifiPcieStateConfig := StateResidencyConfig(
    Supported("count:", None),
    Supported("duration_usec:", Some(UsecToMs)),
    Unsupported)

  /** Power-domain on states (ACPM, nanoseconds). */
  const PowerDomainStateConfig := StateResidencyConfig(
    Supported("on_count:", None),
    Supported("total_on_time_ns:", Some(AcpmNsToMs)),
    Supported("last_on_time_ns:", Some(AcpmNsToMs)))

  /** NFC modes (already milliseconds). */
  const NfcStateConfig := StateResidencyConfig(
    Supported("Cumulative count:", None),
    Supported("Cumulative duration msec:", None),
    Supported("Last entry timestamp msec:", None))

  /** The value a provider reports for a field whose raw counter is `raw`.
      This is the meaning a `Field` has in the generic state-residency
      provider, which is not part of this model: an unsupported counter is
      not reported, and a supported one without a transform is reported
      unchanged. */
  function ReportedValue(f: Field, raw: uint64): (r: Option<uint64>)
    ensures r.None? <==> f.Unsupported?
    ensures f.Supported? && f.transform.None? ==> r == Some(raw)
    ensures r.Some? ==> r.value <= raw
  {
    match f
    case Unsupported => None
    case Supported(_, None) => Some(raw)
    case Supported(_, Some(t)) => Some(Apply(t, raw))
  }

  predicate EndsWith(s: string, suffix: string)
  {
    |suffix| <= |s| && s[|s| - |suffix|..] == suffix
  }

  lemma SuffixOfConcat(stem: string, suffix: string)
    ensures EndsWith(stem + suffix, suffix)
  {
    assert (stem + suffix)[|stem|..] == suffix;
  }

  /** A field's transform matches the unit its prefix names: the ACPM
      transform only after a nanosecond prefix, the microsecond transform
      only after a microsecond prefix, and no transform only after a count
      or a millisecond prefix. */
  predicate UnitsAgree(f: Field)
  {
    match f
    case Unsupported => true
    case Supported(prefix, Some(AcpmNsToMs)) => EndsWith(prefix, "_ns:")
    case Supported(prefix, Some(UsecToMs)) => EndsWith(prefix, "_usec:")
    case Supported(prefix, None) => EndsWith(prefix, "count:") || EndsWith(prefix, " msec:")
  }

  lemma EndsWithAt(p: string, suffix: string, k: nat)
    requires EndsWith(p, suffix) && k < |suffix|
    ensures p[|p| - |suffix| + k] == suffix[k]
  {
    assert p[|p| - |suffix|..][k] == suffix[k];
  }

  /** A prefix names at most one unit: nanoseconds, microseconds, a count
      or milliseconds. */
  lemma PrefixNamesOneUnit(p: string)
    ensures !(EndsWith(p, "_ns:") && EndsWith(p, "_usec:"))
    ensures !(EndsWith(p, "_ns:") && (EndsWith(p, "count:") || EndsWith(p, " msec:")))
    ensures !(EndsWith(p, "_usec:") && (EndsWith(p, "count:") || EndsWith(p, " msec:")))
    ensures !(EndsWith(p, "count:") && EndsWith(p, " msec:"))
  {
    if EndsWith(p, "_ns:") {
      EndsWithAt(p, "_ns:", 0);
    }
    if EndsWith(p, "_usec:") {
      EndsWithAt(p, "_usec:", 0);
    }
    if EndsWith(p, "count:") {
      EndsWithAt(p, "count:", 4);
    }
  }

  /** In a field whose units agree, the prefix alone decides the transform:
      the ACPM transform exactly for nanosecond prefixes and the microsecond
      transform exactly for microsecond prefixes. */
  lemma TransformDecidedByPrefix(f: Field)
    requires f.Supported? && UnitsAgree(f)
    ensures f.transform == Some(AcpmNsToMs) <==> EndsWith(f.prefix, "_ns:")
    ensures f.transform == Some(UsecToMs) <==> EndsWith(f.prefix, "_usec:")
    ensures f.transform == None <==> (EndsWith(f.prefix, "count:") || EndsWith(f.prefix, " msec:"))
  {
    PrefixNamesOneUnit(f.prefix);
  }

  predicate ConfigUnitsAgree(c: StateResidencyConfig)
  {
    UnitsAgree(c.entryCount) && UnitsAgree(c.totalTime) && UnitsAgree(c.lastEntry)
  }

  /** Every time field of every configuration carries the transform its
      prefix's unit calls for, so all reported times are milliseconds. */
  lemma AllConfigsReportMilliseconds()
    ensures ConfigUnitsAgree(SocLpmStateConfig)
    ensures ConfigUnitsAgree(SocDownStateConfig)
    ensures ConfigUnitsAgree(SocReqStateConfig)
    ensures ConfigUnitsAgree(CpuClusterStateConfig)
    ensures ConfigUnitsAgree(ModemPowerStateConfig)
    ensures ConfigUnitsAgree(GnssStateConfig)
    ensures ConfigUnitsAgree(PcieStateConfig)
    ensures ConfigUnitsAgree(WifiStateConfig)
    ensures ConfigUnitsAgree(WifiPcieStateConfig)
    ensures ConfigUnitsAgree(PowerDomainStateConfig)
    ensures ConfigUnitsAgree(NfcStateConfig)
  {
    SocLpmUnits();
    SocDownUnits();
    SocReqUnits();
    CpuClusterUnits();
    ModemPowerUnits();
    GnssUnits();
    PcieUnits();
    WifiUnits();
    WifiPcieUnits();
    PowerDomainUnits();
    NfcUnits();
  }

  lemma SocLpmUnits()
    ensures ConfigUnitsAgree(SocLpmStateConfig)
  {
    SuffixOfConcat("success_", "count:");
    SuffixOfConcat("total_time", "_ns:");
    SuffixOfConcat("last_entry_time", "_ns:");
  }

  lemma SocDownUnits()
    ensures ConfigUnitsAgree(SocDownStateConfig)
  {
    SuffixOfConcat("down_", "count:");
    SuffixOfConcat("total_down_time", "_ns:");
    SuffixOfConcat("last_down_time", "_ns:");
  }

  lemma SocReqUnits()
    ensures ConfigUnitsAgree(SocReqStateConfig)
  {
    SuffixOfConcat("req_up_", "count:");
    SuffixOfConcat("total_req_up_time", "_ns:");
    SuffixOfConcat("last_req_up_time", "_ns:");
  }

  lemma CpuClusterUnits()
    ensures ConfigUnitsAgree(CpuClusterStateConfig)
  {
    SuffixOfConcat("down_", "count:");
    SuffixOfConcat("total_down_time", "_ns:");
    SuffixOfConcat("last_down_time", "_ns:");
  }

  lemma ModemPowerUnits()
    ensures ConfigUnitsAgree(ModemPowerStateConfig)
  {
    SuffixOfConcat("", "count:");
    SuffixOfConcat("duration", "_usec:");
    SuffixOfConcat("last_entry_timestamp", "_usec:");
  }

  lemma GnssUnits()
    ensures ConfigUnitsAgree(GnssStateConfig)
  {
    SuffixOfConcat("", "count:");
    SuffixOfConcat("duration", "_usec:");
    SuffixOfConcat("last_entry_timestamp", "_usec:");
  }

  lemma PcieUnits()
    ensures ConfigUnitsAgree(PcieStateConfig)
  {
    SuffixOfConcat("Cumulative ", "count:");
    SuffixOfConcat("Cumulative duration", " msec:");
    SuffixOfConcat("Last entry timestamp", " msec:");
  }

  lemma WifiUnits()
    ensures ConfigUnitsAgree(WifiStateConfig)
  {
    SuffixOfConcat("", "count:");
    SuffixOfConcat("duration", "_usec:");
    SuffixOfConcat("last_entry_timestamp", "_usec:");
  }

  lemma WifiPcieUnits()
    ensures ConfigUnitsAgree(WifiPcieStateConfig)
  {
    SuffixOfConcat("", "count:");
    SuffixOfConcat("duration", "_usec:");
  }

  lemma PowerDomainUnits()
    ensures ConfigUnitsAgree(PowerDomainStateConfig)
  {
    SuffixOfConcat("on_", "count:");
    SuffixOfConcat("total_on_time", "_ns:");
    SuffixOfConcat("last_on_time", "_ns:");
  }

  lemma NfcUnits()
    ensures ConfigUnitsAgree(NfcStateConfig)
  {
    SuffixOfConcat("Cumulative ", "count:");
    SuffixOfConcat("Cumulative duration", " msec:");
    SuffixOfConcat("Last entry timestamp", " msec:");
  }

  /** With the modem's configuration, "count: 5" and "duration_usec: 2000"
      report an entry count of 5 and a total time of 2 ms. */
  lemma ModemScenario()
    ensures ReportedValue(ModemPowerStateConfig.entryCount, 5) == Some(5)
    ensures ReportedValue(ModemPowerStateConfig.totalTime, 2000) == Some(2)
    ensures ReportedValue(WifiPcieStateConfig.lastEntry, 2000) == None
  {
  }
}
