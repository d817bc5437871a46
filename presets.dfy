/**
 * The preset catalog of the deployment script: a closed table from a bin step
 * (the price granularity of a trading pair) to the fee and volatility
 * parameters the factory is configured with for that bin step.
 */
module Presets {
  import opened Wrappers

  /** One row of the catalog; every numeric field is a plain integer. */
  datatype FactoryPreset = FactoryPreset(
    binStep: int,
    baseFactor: int,
    filterPeriod: int,
    decayPeriod: int,
    reductionFactor: int,
    variableFeeControl: int,
    protocolShare: int,
    maxVolatilityAccumulated: int,
    sampleLifetime: int,
    isOpen: bool)

  /** The lookup's only failure: the bin step is not in the catalog. */
  datatype PresetError = NoPresetForBinStep(binStep: int)

  /** The fields that every row of the catalog shares. */
  predicate HasSharedFields(p: FactoryPreset)
  {
    && p.reductionFactor == 5000
    && p.protocolShare == 0
    && p.sampleLifetime == 120
    && !p.isOpen
  }

  /** Every numeric field is non-negative, the bin step is positive and the
      filter period is shorter than the decay period. */
  predicate WellFormed(p: FactoryPreset)
  {
    && p.binStep > 0
    && p.baseFactor >= 0
    && 0 <= p.filterPeriod < p.decayPeriod
    && p.reductionFactor >= 0
    && p.variableFeeControl >= 0
    && p.protocolShare >= 0
    && p.maxVolatilityAccumulated >= 0
    && p.sampleLifetime >= 0
  }

  /** The supported bin steps, in the order the catalog lists them. */
  function PresetList(): (r: seq<int>)
    ensures |r| == 7
    ensures forall i, j :: 0 <= i < j < |r| ==> 0 < r[i] < r[j]
  {
    [1, 2, 5, 10, 15, 20, 25]
  }

  /** Looks a bin step up in the catalog; any other key is an error. */
  function GetPreset(bp: int): (r: Result<FactoryPreset, PresetError>)
    ensures r.Success? <==> bp in PresetList()
    ensures r.Success? ==> r.value.binStep == bp && HasSharedFields(r.value) && WellFormed(r.value)
    ensures r.Failure? ==> r.error == NoPresetForBinStep(bp)
  {
    if bp == 1 then
      Success(FactoryPreset(1, 20000, 10, 120, 5000, 2000000, 0, 100000, 120, false))
    else if bp == 2 then
      Success(FactoryPreset(2, 15000, 10, 120, 5000, 500000, 0, 250000, 120, false))
    else if bp == 5 then
      Success(FactoryPreset(5, 8000, 30, 600, 5000, 120000, 0, 300000, 120, false))
    else if bp == 10 then
      Success(FactoryPreset(10, 10000, 30, 600, 5000, 40000, 0, 350000, 120, false))
    else if bp == 15 then
      Success(FactoryPreset(15, 10000, 30, 600, 5000, 30000, 0, 350000, 120, false))
    else if bp == 20 then
      Success(FactoryPreset(20, 10000, 30, 600, 5000, 20000, 0, 350000, 120, false))
    else if bp == 25 then
      Success(FactoryPreset(25, 10000, 30, 600, 5000, 15000, 0, 350000, 120, false))
    else
      Failure(NoPresetForBinStep(bp))
  }

  /** Iterating the list never hits the error branch, and each row is keyed
      by the bin step it was looked up with. */
  lemma {:induction false} PresetListIsCovered(i: nat)
    requires i < |PresetList()|
    ensures GetPreset(PresetList()[i]).Success?
    ensures GetPreset(PresetList()[i]).value.binStep == PresetList()[i]
  {
    assert PresetList()[i] in PresetList();
  }

  /** A bin step identifies its row: two lookups that succeed with the same
      row were made with the same bin step. */
  lemma PresetsAreDistinct(a: int, b: int)
    requires GetPreset(a).Success? && GetPreset(b).Success?
    requires GetPreset(a).value == GetPreset(b).value
    ensures a == b
  {
  }
}
