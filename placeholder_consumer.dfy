/** The placeholder Wi-Fi / Bluetooth energy consumer of the board
    configuration: it looks up the shared WLAN/BT supply rail in the energy
    meter's channel catalog once, and reports half of that rail's energy on
    every query. The halving is a stop-gap the source marks for removal
    once real Wi-Fi and Bluetooth energy models exist.

    The energy meter (the aggregator's getEnergyMeterInfo and
    readEnergyMeter) is given to the model as its results: the channel
    catalog is a constructor parameter, and a meter read is a function from
    the requested channel ids to either the measurements or a failure. */
module PlaceholderConsumer {
  import opened PowerStatsTypes

  /** The rail both placeholder consumers draw on. */
  const WlanBtRailName: string := "VSYS_PWR_WLAN_BT"

  /** The channel id that means "no channel found". */
  const NoChannel: int32 := -1

  /** A meter read for a list of channel ids: None when the read fails. */
  type MeterRead = seq<int32> -> Option<seq<EnergyMeasurement>>

  /** Index of the first channel in the catalog whose name is `name`. */
  function FirstChannelNamed(channels: seq<Channel>, name: string): (r: Option<nat>)
    ensures r.Some? ==> r.value < |channels| && channels[r.value].name == name
    ensures r.Some? ==> forall j :: 0 <= j < r.value ==> channels[j].name != name
    ensures r.None? <==> forall j :: 0 <= j < |channels| ==> channels[j].name != name
    decreases |channels|
  {
    if |channels| == 0 then None
    else if channels[0].name == name then Some(0)
    else match FirstChannelNamed(channels[1..], name)
      case None => None
      case Some(k) => Some(k + 1)
  }

  /** The channel id the consumer settles on for a catalog: that of the
      first WLAN/BT channel, or NoChannel. */
  ghost predicate IsLookedUpId(channels: seq<Channel>, id: int32)
  {
    match FirstChannelNamed(channels, WlanBtRailName)
    case Some(i) => id == channels[i].id
    case None => id == NoChannel
  }

  /** Sum of the energies of a list of measurements, accumulated front to back. */
  function TotalEnergy(ms: seq<EnergyMeasurement>): int
    decreases |ms|
  {
    if |ms| == 0 then 0 else TotalEnergy(ms[..|ms| - 1]) + ms[|ms| - 1].energyUWs
  }

  /** Timestamp of the last measurement, 0 for an empty list. */
  function LastTimestamp(ms: seq<EnergyMeasurement>): int64
  {
    if |ms| == 0 then 0 else ms[|ms| - 1].timestampMs
  }

  /** Arithmetic right shift by one of the running sum: the floor of half. */
  function ShiftRightByOne(s: int): (r: int)
    ensures 2 * r <= s < 2 * r + 2
  {
    s / 2
  }

  /** What a query reports once the meter has been read. */
  function ResultOfRead(outcome: Option<seq<EnergyMeasurement>>): (r: Option<EnergyConsumerResult>)
    ensures r.None? <==> outcome.None?
    ensures outcome.Some? && |outcome.value| == 0 ==> r.value.timestampMs == 0
    ensures outcome.Some? && |outcome.value| > 0 ==>
              r.value.timestampMs == outcome.value[|outcome.value| - 1].timestampMs
    ensures outcome.Some? ==>
              2 * r.value.energyUWs <= TotalEnergy(outcome.value) < 2 * r.value.energyUWs + 2
  {
    match outcome
    case None => None
    case Some(ms) => Some(EnergyConsumerResult(LastTimestamp(ms), ShiftRightByOne(TotalEnergy(ms))))
  }

  class PlaceholderEnergyConsumer {
    const kType: EnergyConsumerType
    const kName: string
    var mChannelId: int32

    /** Searches the meter's channel catalog for the WLAN/BT rail. */
    constructor (channels: seq<Channel>, consumerType: EnergyConsumerType, name: string)
      ensures kType == consumerType && kName == name
      ensures IsLookedUpId(channels, mChannelId)
    {
      kType := consumerType;
      kName := name;
      mChannelId := NoChannel;
      new;
      var i := 0;
      while i < |channels|
        invariant 0 <= i <= |channels|
        invariant mChannelId == NoChannel
        invariant forall j :: 0 <= j < i ==> channels[j].name != WlanBtRailName
      {
        if channels[i].name == WlanBtRailName {
          mChannelId := channels[i].id;
          break;
        }
        i := i + 1;
      }
    }

    function GetInfo(): (info: (EnergyConsumerType, string))
      ensures info.0 == kType && info.1 == GetConsumerName()
    {
      (kType, kName)
    }

    function GetConsumerName(): (name: string)
      ensures name == kName
    {
      kName
    }

    /** Reads the one looked-up channel and reports half its summed energy
        with the timestamp of the last measurement. Without a channel the
        meter is not consulted and a zero result is reported; a failed read
        reports nothing. No field changes. */
    method GetEnergyConsumed(meter: MeterRead) returns (r: Option<EnergyConsumerResult>)
      ensures mChannelId == NoChannel ==> r == Some(EnergyConsumerResult(0, 0))
      ensures mChannelId != NoChannel ==> r == ResultOfRead(meter([mChannelId]))
    {
      var totalEnergyUWs := 0;
      var timestampMs: int64 := 0;
      if mChannelId != NoChannel {
        var outcome := meter([mChannelId]);
        if outcome.Some? {
          var measurements := outcome.value;
          var i := 0;
          while i < |measurements|
            invariant 0 <= i <= |measurements|
            invariant totalEnergyUWs == TotalEnergy(measurements[..i])
            invariant timestampMs == LastTimestamp(measurements[..i])
          {
            assert measurements[..i + 1][..i] == measurements[..i];
            totalEnergyUWs := totalEnergyUWs + measurements[i].energyUWs;
            timestampMs := measurements[i].timestampMs;
            i := i + 1;
          }
          assert measurements[..i] == measurements;
        } else {
          return None;
        }
      }
      return Some(EnergyConsumerResult(timestampMs, ShiftRightByOne(totalEnergyUWs)));
    }
  }

  /** Builds the Wi-Fi and the Bluetooth placeholder consumers. Each
      constructor reads the meter's channel catalog itself: `wifiChannels`
      is what the first read returns, `btChannels` what the second returns.
      When the two reads agree, both consumers end up on the same rail. */
  method AddPlaceholderEnergyConsumers(wifiChannels: seq<Channel>, btChannels: seq<Channel>)
    returns (wifi: PlaceholderEnergyConsumer, bt: PlaceholderEnergyConsumer)
    ensures fresh(wifi) && fresh(bt) && wifi != bt
    ensures wifi.GetInfo() == (Wifi, "Wifi") && bt.GetInfo() == (Bluetooth, "BT")
    ensures IsLookedUpId(wifiChannels, wifi.mChannelId) && IsLookedUpId(btChannels, bt.mChannelId)
    ensures wifiChannels == btChannels ==> wifi.mChannelId == bt.mChannelId
  {
    wifi := new PlaceholderEnergyConsumer(wifiChannels, Wifi, "Wifi");
    bt := new PlaceholderEnergyConsumer(btChannels, Bluetooth, "BT");
  }

  lemma {:induction false} TotalEnergyAppend(a: seq<EnergyMeasurement>, b: seq<EnergyMeasurement>)
    ensures TotalEnergy(a + b) == TotalEnergy(a) + TotalEnergy(b)
    decreases |b|
  {
    if |b| == 0 {
      assert a + b == a;
    } else {
      var b' := b[..|b| - 1];
      assert (a + b)[..|a + b| - 1] == a + b';
      TotalEnergyAppend(a, b');
    }
  }

  /** Taking one measurement out of the list takes its energy out of the sum. */
  lemma TotalEnergyRemoveAt(b: seq<EnergyMeasurement>, k: nat)
    requires k < |b|
    ensures TotalEnergy(b) == TotalEnergy(b[..k] + b[k + 1..]) + b[k].energyUWs
  {
    var before, upTo, after := b[..k], b[..k + 1], b[k + 1..];
    assert TotalEnergy(b) == TotalEnergy(upTo) + TotalEnergy(after) by {
      assert b == upTo + after;
      TotalEnergyAppend(upTo, after);
    }
    assert TotalEnergy(upTo) == TotalEnergy(before) + b[k].energyUWs by {
      assert upTo[..k] == before;
    }
    TotalEnergyAppend(before, after);
  }

  /** The summed energy does not depend on the order the meter returns the
      measurements in. */
  lemma {:induction false} TotalEnergyPermutation(a: seq<EnergyMeasurement>, b: seq<EnergyMeasurement>)
    requires multiset(a) == multiset(b)
    ensures TotalEnergy(a) == TotalEnergy(b)
    decreases |a|
  {
    if |a| == 0 {
      assert |b| == |multiset(b)| == 0;
    } else {
      var x := a[|a| - 1];
      var a' := a[..|a| - 1];
      assert a == a' + [x];
      assert x in multiset(b);
      var k :| 0 <= k < |b| && b[k] == x;
      var rest := b[..k] + b[k + 1..];
      MultisetRemoveAt(b, k);
      assert multiset(a') == multiset(a) - multiset{x};
      TotalEnergyPermutation(a', rest);
      TotalEnergyRemoveAt(b, k);
    }
  }

  lemma MultisetRemoveAt<T>(b: seq<T>, k: nat)
    requires k < |b|
    ensures multiset(b[..k] + b[k + 1..]) == multiset(b) - multiset{b[k]}
  {
    assert b == b[..k] + [b[k]] + b[k + 1..];
  }

  lemma {:induction false} TotalEnergyNonNegative(ms: seq<EnergyMeasurement>)
    requires forall i :: 0 <= i < |ms| ==> ms[i].energyUWs >= 0
    ensures TotalEnergy(ms) >= 0
    decreases |ms|
  {
    if |ms| > 0 {
      TotalEnergyNonNegative(ms[..|ms| - 1]);
    }
  }

  /** With non-negative cumulative energies the reported value lies between
      zero and the full sum of the rail. */
  lemma ReportedEnergyWithinRail(ms: seq<EnergyMeasurement>)
    requires forall i :: 0 <= i < |ms| ==> ms[i].energyUWs >= 0
    ensures 0 <= ResultOfRead(Some(ms)).value.energyUWs <= TotalEnergy(ms)
  {
    TotalEnergyNonNegative(ms);
  }

  /** Two readings of the rail: the last timestamp is kept and the summed
      energy is halved, rounding down. */
  lemma TwoReadingScenario()
    ensures ResultOfRead(Some([EnergyMeasurement(3, 1000, 100), EnergyMeasurement(3, 1500, 301)]))
         == Some(EnergyConsumerResult(1500, 200))
  {
    var ms := [EnergyMeasurement(3, 1000, 100), EnergyMeasurement(3, 1500, 301)];
    assert ms[..1][..0] == [];
    assert TotalEnergy(ms[..1]) == 100;
    assert TotalEnergy(ms) == 401;
  }
}
