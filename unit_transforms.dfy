/** The time-unit transforms the board hands to its state-residency
    providers: kernel counters in nanoseconds (the ACPM statistics) or
    microseconds (modem, GNSS and Wi-Fi statistics) are reported in
    milliseconds. Each transform is an unsigned 64-bit division, which
    truncates toward zero. */
module UnitTransforms {
  import opened PowerStatsTypes

  /** Nanoseconds in one millisecond. */
  const NsPerMs: nat := 1000000

  /** Microseconds in one millisecond. */
  const UsPerMs: nat := 1000

  /** The ACPM transform: nanoseconds to whole milliseconds. */
  function NsToMs(a: uint64): (r: uint64)
    ensures r * NsPerMs <= a < (r + 1) * NsPerMs
  {
    a / NsPerMs
  }

  /** The modem, GNSS and Wi-Fi transform: microseconds to whole milliseconds. */
  function UsToMs(a: uint64): (r: uint64)
    ensures r * UsPerMs <= a < (r + 1) * UsPerMs
  {
    a / UsPerMs
  }

  /** The transforms a state-residency field can carry. */
  datatype Transform = AcpmNsToMs | UsecToMs

  function Apply(t: Transform, a: uint64): (r: uint64)
    ensures r <= a
    ensures a < 1000 ==> r == 0
  {
    match t
    case AcpmNsToMs => NsToMs(a)
    case UsecToMs => UsToMs(a)
  }

  /** Truncation boundaries: just under a millisecond reports 0, exactly one reports 1. */
  lemma TransformBoundaries()
    ensures NsToMs(0) == 0 && NsToMs(999999) == 0 && NsToMs(1000000) == 1
    ensures UsToMs(999) == 0 && UsToMs(1000) == 1 && UsToMs(2000) == 2
  {
  }

  /** A larger counter never reports fewer milliseconds. */
  lemma NsToMsMonotone(a: uint64, b: uint64)
    requires a <= b
    ensures NsToMs(a) <= NsToMs(b)
  {
  }

  lemma UsToMsMonotone(a: uint64, b: uint64)
    requires a <= b
    ensures UsToMs(a) <= UsToMs(b)
  {
  }
}
