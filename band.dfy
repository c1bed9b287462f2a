/**
 * The IN865-867 band of the LoRaWAN Regional Parameters v1.1 revision A
 * (section 2.10 of that document), as the network stack defines it: a constant
 * band record and the rule that picks the RX1 downlink data rate from the
 * uplink data rate and the RX1 data-rate offset.
 */
module Band {

  /** Data-rate indices DR0..DR15, as the protocol enumerates them. */
  type DataRateIndex = x: int | 0 <= x <= 15

  /** RX1 data-rate offsets 0..7, as the protocol enumerates them. */
  type DataRateOffset = x: int | 0 <= x <= 7

  /** Go's conversion to `int8`: two's-complement wrap-around into -128..127. */
  function Int8(x: int): (r: int)
    ensures -128 <= r <= 127
    ensures (r - x) % 256 == 0
    ensures -128 <= x <= 127 ==> r == x
  {
    (x + 128) % 256 - 128
  }

  /** `x` forced into `lo..hi`: the reference the RX1 rule is checked against. */
  function Clamp(x: int, lo: int, hi: int): (r: int)
    requires lo <= hi
    ensures lo <= r <= hi
    ensures r == x || (x < lo && r == lo) || (x > hi && r == hi)
  {
    if x < lo then lo else if x > hi then hi else x
  }

  /** The offset the RX1 rule actually subtracts: 6 and 7 stand for -1 and -2. */
  function EffectiveOffset(offset: DataRateOffset): (so: int)
    ensures -2 <= so <= 5
    ensures offset <= 5 ==> so == offset
    ensures offset > 5 ==> so == 5 - offset
  {
    var so := Int8(offset);
    if so > 5 then Int8(5 - so) else so
  }

  /**
   * The band's RX1 data-rate rule. The Go closure returns an `error` that is
   * always nil, so the model returns the index alone. The third argument
   * (the downlink dwell-time setting) is ignored by the band.
   */
  function Rx1DataRate(idx: DataRateIndex, offset: DataRateOffset, dwellTime: bool): (r: DataRateIndex)
    ensures r <= 5
    ensures offset <= 5 ==> r == Clamp(idx - offset, 0, 5)
    ensures offset == 6 ==> r == Clamp(idx + 1, 0, 5)
    ensures offset == 7 ==> r == Clamp(idx + 2, 0, 5)
  {
    var so := EffectiveOffset(offset);
    var si := Int8(Int8(idx) - so);
    if si <= 0 then 0
    else if si >= 5 then 5
    else si
  }

  /** No intermediate value of the RX1 rule leaves the `int8` range, so the wrap-around never applies. */
  lemma Rx1DataRateNeverWraps(idx: DataRateIndex, offset: DataRateOffset)
    ensures -128 <= offset <= 127 && Int8(offset) == offset
    ensures -128 <= idx <= 127 && Int8(idx) == idx
    ensures -128 <= idx - EffectiveOffset(offset) <= 127
    ensures Int8(idx - EffectiveOffset(offset)) == idx - EffectiveOffset(offset)
  {
  }

  /** The dwell-time argument has no influence on the RX1 data rate. */
  lemma Rx1DataRateIgnoresDwellTime(idx: DataRateIndex, offset: DataRateOffset)
    ensures Rx1DataRate(idx, offset, true) == Rx1DataRate(idx, offset, false)
  {
  }

  /** For a fixed offset, a higher uplink data rate never gives a lower RX1 data rate. */
  lemma Rx1DataRateMonotone(i: DataRateIndex, j: DataRateIndex, offset: DataRateOffset, dwellTime: bool)
    requires i <= j
    ensures Rx1DataRate(i, offset, dwellTime) <= Rx1DataRate(j, offset, dwellTime)
  {
  }

  /** Offset 0 keeps every LoRa uplink data rate DR0..DR5 as it is. */
  lemma Rx1DataRateOffsetZero(idx: DataRateIndex, dwellTime: bool)
    requires idx <= 5
    ensures Rx1DataRate(idx, 0, dwellTime) == idx
  {
  }

  /** Coding rates the band's data rates use. */
  datatype CodingRate = Cr4_5 | Cr4_6 | Cr4_7 | Cr4_8

  /**
   * A data rate of the band: LoRa with a spreading factor and bandwidth, or
   * FSK with a bit rate. The maximum MAC payload size does not depend on the
   * dwell time in this band, so it is a constant per rate.
   */
  datatype DataRate =
    | LoRa(spreadingFactor: nat, bandwidth: nat, codingRate: CodingRate, maxMacPayloadSize: nat)
    | FSK(bitRate: nat, maxMacPayloadSize: nat)

  /** A frequency range with its duty-cycle limit. */
  datatype SubBand = SubBand(minFrequency: nat, maxFrequency: nat, dutyCycle: real)

  /** Default parameters of the second receive window. */
  datatype Rx2Parameters = Rx2Parameters(dataRateIndex: DataRateIndex, frequency: nat)

  /** Class B beacon settings. */
  datatype Beacon = Beacon(dataRateIndex: DataRateIndex, codingRate: CodingRate)

  /** The type of channel list a join-accept carries. */
  datatype CFListType = Frequencies | ChannelMasks

  /** A band definition: constant data plus the RX1 data-rate rule. */
  datatype Band = Band(
    id: string,
    supportsDynamicAdr: bool,
    maxUplinkChannels: nat,
    maxDownlinkChannels: nat,
    subBands: seq<SubBand>,
    dataRates: map<DataRateIndex, DataRate>,
    maxAdrDataRateIndex: DataRateIndex,
    defaultMaxEirp: int,
    rx1DataRate: (DataRateIndex, DataRateOffset, bool) -> DataRateIndex,
    freqMultiplier: nat,
    implementsCfList: bool,
    cfListType: CFListType,
    defaultRx2: Rx2Parameters,
    beacon: Beacon)

  /** `f` lies inside one of the band's sub-bands. */
  predicate InSomeSubBand(b: Band, f: nat)
  {
    exists k :: 0 <= k < |b.subBands| && b.subBands[k].minFrequency <= f <= b.subBands[k].maxFrequency
  }

  /**
   * A band is consistent when the ADR ceiling is its fastest LoRa rate, the
   * RX1 rule only yields defined rates at or below that ceiling, and the
   * default RX2 and beacon rates are defined and the RX2 frequency is in a sub-band.
   */
  predicate Consistent(b: Band)
  {
    && b.maxAdrDataRateIndex in b.dataRates
    && b.dataRates[b.maxAdrDataRateIndex].LoRa?
    && (forall i :: i in b.dataRates && b.dataRates[i].LoRa? ==> i <= b.maxAdrDataRateIndex)
    && (forall i, o, d :: b.rx1DataRate(i, o, d) in b.dataRates && b.rx1DataRate(i, o, d) <= b.maxAdrDataRateIndex)
    && b.defaultRx2.dataRateIndex in b.dataRates
    && InSomeSubBand(b, b.defaultRx2.frequency)
    && b.beacon.dataRateIndex in b.dataRates
  }

  /** The IN865-867 data-rate table: LoRa DR0..DR5 at 125 kHz, FSK at DR7, no DR6. */
  function IN865867DataRates(): (t: map<DataRateIndex, DataRate>)
    ensures t.Keys == {0, 1, 2, 3, 4, 5, 7}
    ensures forall i :: i in t && i <= 5 ==> t[i].LoRa? && t[i].bandwidth == 125000 && t[i].spreadingFactor == 12 - i
    ensures t[7] == FSK(50000, 250)
    ensures t[0].maxMacPayloadSize == 59 && t[1].maxMacPayloadSize == 59 && t[2].maxMacPayloadSize == 59
    ensures t[3].maxMacPayloadSize == 123 && t[4].maxMacPayloadSize == 250 && t[5].maxMacPayloadSize == 250
  {
    map[
      0 := LoRa(12, 125000, Cr4_5, 59),
      1 := LoRa(11, 125000, Cr4_5, 59),
      2 := LoRa(10, 125000, Cr4_5, 59),
      3 := LoRa(9, 125000, Cr4_5, 123),
      4 := LoRa(8, 125000, Cr4_5, 250),
      5 := LoRa(7, 125000, Cr4_5, 250),
      7 := FSK(50000, 250)]
  }

  /** The IN865-867 band definition of the Regional Parameters v1.1 revision A. */
  function IN865867(): (b: Band)
    ensures b.maxUplinkChannels == 16 && b.maxDownlinkChannels == 16
    ensures b.dataRates == IN865867DataRates()
    ensures b.maxAdrDataRateIndex == 5
    ensures |b.subBands| == 1
    ensures b.subBands[0] == SubBand(865000000, 867000000, 1.0)
    ensures b.defaultRx2 == Rx2Parameters(2, 866550000)
    ensures forall i, o, d :: b.rx1DataRate(i, o, d) == Rx1DataRate(i, o, d)
  {
    Band(
      id := "IN_865_867",
      supportsDynamicAdr := true,
      maxUplinkChannels := 16,
      maxDownlinkChannels := 16,
      subBands := [SubBand(865000000, 867000000, 1.0)],
      dataRates := IN865867DataRates(),
      maxAdrDataRateIndex := 5,
      defaultMaxEirp := 30,
      rx1DataRate := Rx1DataRate,
      freqMultiplier := 100,
      implementsCfList := true,
      cfListType := Frequencies,
      defaultRx2 := Rx2Parameters(2, 866550000),
      beacon := Beacon(4, Cr4_5))
  }

  /** The IN865-867 band is consistent: DR5 is both the ADR ceiling and the RX1 ceiling, and RX2 is in the sub-band. */
  lemma IN865867Consistent()
    ensures Consistent(IN865867())
  {
    var b := IN865867();
    var t := IN865867DataRates();
    assert b.dataRates == t;
    forall i | i in t && t[i].LoRa?
      ensures i <= 5
    {
      assert i in {0, 1, 2, 3, 4, 5, 7};
    }
    forall i, o, d
      ensures b.rx1DataRate(i, o, d) in t && b.rx1DataRate(i, o, d) <= 5
    {
      var r := b.rx1DataRate(i, o, d);
      assert r <= 5;
      assert r in {0, 1, 2, 3, 4, 5};
    }
    assert InSomeSubBand(b, b.defaultRx2.frequency) by {
      assert b.subBands[0].minFrequency <= b.defaultRx2.frequency <= b.subBands[0].maxFrequency;
    }
  }
}
