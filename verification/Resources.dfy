/** vCPU and memory sizing from a Nomad allocation (`chdriver/cloudhypervisor.go`). */
module Resources {
  import opened Prelude

  const OVERHEAD_BYTES: int := 512 * 1024 * 1024
  const MIN_GUEST_BYTES: int := 256 * 1024 * 1024

  /** An allocation; both numbers are Go `int64` values. */
  datatype Allocation = Allocation(reservedCores: seq<int>, cpuShares: int, memoryMB: int)

  function Vcpus(r: Option<Allocation>): (n: nat)
    ensures n >= 1
    ensures r.Some? && r.value.reservedCores != [] ==> n == |r.value.reservedCores|
    ensures r.Some? && r.value.reservedCores == [] ==>
              var shares := if r.value.cpuShares > 1000 then r.value.cpuShares else 1000;
              n * 1000 <= shares < (n + 1) * 1000
  {
    match r
    case None => 1
    case Some(a) =>
      if |a.reservedCores| > 0 then |a.reservedCores|
      else if a.cpuShares > 0 then
        if a.cpuShares / 1000 > 1 then a.cpuShares / 1000 else 1
      else 1
  }

  /** The allocation in bytes, as the `int64` multiplication leaves it. */
  function MemoryBytes(r: Option<Allocation>): int {
    match r
    case None => 0
    case Some(a) => Wrap64(Wrap64(a.memoryMB * 1024) * 1024)
  }

  datatype GuestMemory = Unlimited | Sized(bytes: nat) | TooSmall(mem: int)

  /** What the guest gets: nothing is said when no memory is allocated, otherwise the allocation
      less the overhead, unless that is below the minimum. */
  function Guest(r: Option<Allocation>): GuestMemory {
    var mem := MemoryBytes(r);
    if mem <= 0 then Unlimited
    else if mem - OVERHEAD_BYTES < MIN_GUEST_BYTES then TooSmall(mem)
    else Sized(mem - OVERHEAD_BYTES)
  }

  /** The product does not wrap exactly when the allocation is below 2^43 MB in magnitude. */
  lemma MemoryBytesExact(a: Allocation)
    requires -TWO_63 <= a.memoryMB < TWO_63
    ensures MemoryBytes(Some(a)) == a.memoryMB * 1024 * 1024 <==> -0x800_0000_0000 <= a.memoryMB < 0x800_0000_0000
  {
    var inner := Wrap64(a.memoryMB * 1024);
    if -0x800_0000_0000 <= a.memoryMB < 0x800_0000_0000 {
      assert inner == a.memoryMB * 1024;
    }
  }

  /** Without wrap-around, a positive allocation is accepted exactly when it is at least 768 MB, and
      then guest and overhead together are the allocation; no allocation means no limit. */
  lemma GuestAcceptance(a: Allocation)
    requires -0x800_0000_0000 <= a.memoryMB < 0x800_0000_0000
    ensures Guest(Some(a)).Unlimited? <==> a.memoryMB <= 0
    ensures Guest(Some(a)).Sized? <==> a.memoryMB >= 768
    ensures Guest(Some(a)).Sized? ==> Guest(Some(a)).bytes == (a.memoryMB - 512) * 1024 * 1024
    ensures Guest(Some(a)).TooSmall? ==> Guest(Some(a)).mem == a.memoryMB * 1024 * 1024
  {
    MemoryBytesExact(a);
  }
}
