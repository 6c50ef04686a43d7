/** The sizing arithmetic of CreateVolume: requested bytes, rounded up to whole
    GiB, then rounded up to whole 120 GiB data partitions. */
module Sizing {
  import opened Common

  const GiB: nat := 1024 * 1024 * 1024

  /** Every data partition holds exactly this many GiB. */
  const PartitionUnitGiB: nat := 120

  datatype CapacityRange = CapacityRange(requiredBytes: nat)

  /** The byte count CreateVolume works from: the capacity range's required
      bytes when the request carries one, 1 GiB otherwise. */
  function RequestedBytes(capacity: Option<CapacityRange>): (bytes: nat)
    ensures capacity.None? ==> bytes == GiB
    ensures capacity.Some? ==> bytes == capacity.value.requiredBytes
  {
    match capacity
    case None => GiB
    case Some(range) => range.requiredBytes
  }

  /** `util.RoundUpSize(size, unit)`: the fewest whole units that hold `size`. */
  function RoundUpSize(size: nat, unit: nat): (units: nat)
    requires unit > 0
    ensures units * unit >= size
    ensures units > 0 ==> (units - 1) * unit < size
  {
    if size % unit == 0 then size / unit else size / unit + 1
  }

  /** The whole-GiB size CreateVolume computes from the request. */
  function RequestedGiB(capacity: Option<CapacityRange>): nat
  {
    RoundUpSize(RequestedBytes(capacity), GiB)
  }

  /** The number of data partitions CreateVolume asks for: enough 120 GiB units
      to hold `sizeGiB`, and on an exact multiple exactly `sizeGiB / 120`. */
  function PartitionCount(sizeGiB: nat): (count: nat)
    ensures count * PartitionUnitGiB >= sizeGiB
    ensures count * PartitionUnitGiB < sizeGiB + PartitionUnitGiB
    ensures sizeGiB % PartitionUnitGiB == 0 ==> count * PartitionUnitGiB == sizeGiB
  {
    if sizeGiB % PartitionUnitGiB == 0 then sizeGiB / PartitionUnitGiB
    else sizeGiB / PartitionUnitGiB + 1
  }

  /** The final size: left as it is on an exact multiple of 120, otherwise
      replaced by count * 120. Both branches give count * 120: a multiple of the
      unit, at least the requested size and less than one unit above it. */
  function ProvisionedGiB(sizeGiB: nat): (total: nat)
    ensures total == PartitionCount(sizeGiB) * PartitionUnitGiB
    ensures total % PartitionUnitGiB == 0
    ensures sizeGiB <= total < sizeGiB + PartitionUnitGiB
  {
    if sizeGiB % PartitionUnitGiB == 0 then sizeGiB
    else PartitionCount(sizeGiB) * PartitionUnitGiB
  }

  /** No smaller number of partitions holds `sizeGiB`: the provisioned size is
      the smallest multiple of 120 GiB that is at least the requested size. */
  lemma PartitionCountIsLeast(sizeGiB: nat, k: nat)
    requires k * PartitionUnitGiB >= sizeGiB
    ensures k >= PartitionCount(sizeGiB)
    ensures k * PartitionUnitGiB >= ProvisionedGiB(sizeGiB)
  {
  }

  /** An exact multiple of 120 GiB keeps its size and needs size / 120 partitions. */
  lemma ExactMultipleUnchanged(sizeGiB: nat)
    requires sizeGiB % PartitionUnitGiB == 0
    ensures PartitionCount(sizeGiB) == sizeGiB / PartitionUnitGiB
    ensures ProvisionedGiB(sizeGiB) == sizeGiB
  {
  }

  /** Without a capacity range: 1 GiB, one partition, 120 GiB in all. */
  lemma DefaultCapacityIsOnePartition()
    ensures RequestedGiB(None) == 1
    ensures PartitionCount(RequestedGiB(None)) == 1
    ensures ProvisionedGiB(RequestedGiB(None)) == 120
  {
  }

  /** A capacity range asking for 0 bytes is not replaced by the default:
      0 GiB and no partitions. */
  lemma ZeroRequiredBytesIsNotDefaulted()
    ensures RequestedGiB(Some(CapacityRange(0))) == 0
    ensures PartitionCount(RequestedGiB(Some(CapacityRange(0)))) == 0
  {
  }

  /** 120 GiB stays one partition; 130 GiB and 240 GiB both take two. */
  lemma SizingExamples()
    ensures PartitionCount(RequestedGiB(Some(CapacityRange(120 * GiB)))) == 1
    ensures ProvisionedGiB(RequestedGiB(Some(CapacityRange(120 * GiB)))) == 120
    ensures PartitionCount(RequestedGiB(Some(CapacityRange(130 * GiB)))) == 2
    ensures ProvisionedGiB(RequestedGiB(Some(CapacityRange(130 * GiB)))) == 240
    ensures PartitionCount(240) == 2 && ProvisionedGiB(240) == 240
  {
  }
}
