/**
 The single-writer rule shared by the two drawing authorities: who may mutate a
 drawing while a checkout lease is live.
 */
module Checkout {
  import opened Prelude

  const ANONYMOUS_HOLDER := "anonymous:unnamed-writer"

  /** A lease; one taken before generations existed carries no fence. */
  datatype Lease = Lease(holder: string, expires: int, fence: Option<int>)

  /** What a caller says of itself: who it is, and which lease generation it holds. */
  datatype Claim = Claim(holder: Option<string>, fence: Option<int>)

  predicate IsActive(lease: Option<Lease>, now: int) {
    lease.Some? && lease.value.expires > now
  }

  /** The two claims are independent and each is checked only when made. */
  predicate OwnsLease(lease: Lease, claim: Claim) {
    && (claim.holder.Some? ==>
          claim.holder.value != ANONYMOUS_HOLDER && claim.holder.value == lease.holder)
    && (claim.fence.Some? && lease.fence.Some? ==> claim.fence.value == lease.fence.value)
  }

  predicate Authorized(lease: Option<Lease>, claim: Claim, now: int) {
    IsActive(lease, now) ==> OwnsLease(lease.value, claim)
  }

  /** An active lease yields to its holder, or under the strict rule only to its generation. */
  predicate MayAcquire(lease: Option<Lease>, holder: string, expected: Option<int>, strict: bool, now: int) {
    IsActive(lease, now) ==>
      if strict then expected.Some? && expected.value == FenceOrZero(lease.value)
      else lease.value.holder == holder
  }

  predicate MayRelease(lease: Option<Lease>, holder: Option<string>, expected: Option<int>, now: int) {
    && lease.Some?
    && (IsActive(lease, now) ==>
          if expected.Some? then expected.value == FenceOrZero(lease.value)
          else holder.None? || holder.value == lease.value.holder)
  }

  function FenceOrZero(lease: Lease): int {
    if lease.fence.Some? then lease.fence.value else 0
  }
}
