/**
 The single-writer rule in the words of its documentation, beside the predicates of `Checkout`
 that decide it.
 */
module LeaseRule {
  import opened Prelude
  import opened Checkout

  /** A lease that has yet to expire. */
  predicate Live(lease: Option<Lease>, now: int) {
    lease.Some? && now < lease.value.expires
  }

  /** The caller names nobody, somebody else than the holder, or another generation than the lease's. */
  predicate ClaimsOther(lease: Lease, claim: Claim) {
    || claim.holder == Some(ANONYMOUS_HOLDER)
    || (claim.holder.Some? && claim.holder.value != lease.holder)
    || (claim.fence.Some? && lease.fence.Some? && claim.fence != lease.fence)
  }

  /** Who may take the lease anew: its holder, or under the strict rule whoever presents its generation. */
  predicate MayTake(lease: Lease, holder: string, expected: Option<int>, strict: bool) {
    if !strict then holder == lease.holder
    else expected.Some? && (expected == lease.fence || (lease.fence.None? && expected == Some(0)))
  }

  /** Who may give it up: whoever presents its generation, or without one its holder or a caller that names nobody. */
  predicate MayGive(lease: Lease, holder: Option<string>, expected: Option<int>) {
    if expected.Some? then expected == lease.fence || (lease.fence.None? && expected == Some(0))
    else holder.None? || holder == Some(lease.holder)
  }

  /** Only a live lease keeps anyone out, and it keeps out exactly those who claim to be another. */
  lemma AuthorizedIff(lease: Option<Lease>, claim: Claim, now: int)
    ensures Authorized(lease, claim, now) <==> !(Live(lease, now) && ClaimsOther(lease.value, claim))
    ensures IsActive(lease, now) <==> Live(lease, now)
  {
  }

  lemma MayAcquireIff(lease: Option<Lease>, holder: string, expected: Option<int>, strict: bool, now: int)
    ensures MayAcquire(lease, holder, expected, strict, now)
       <==> (Live(lease, now) ==> MayTake(lease.value, holder, expected, strict))
  {
  }

  lemma MayReleaseIff(lease: Option<Lease>, holder: Option<string>, expected: Option<int>, now: int)
    ensures MayRelease(lease, holder, expected, now)
       <==> lease.Some? && (Live(lease, now) ==> MayGive(lease.value, holder, expected))
  {
  }
}
