/** The persisted lease document of store/lock.go, the handle given to a holder, and the
    pure decisions taken on them. Times are nanoseconds. */
module Leases {
  import opened Common

  datatype Lease = Lease(
    id: string,
    version: int,
    owner: string,
    leaseID: nat,
    held: bool,
    duration: int,
    revision: int,
    expiresAt: int,
    acquiredAt: int)

  /** The content hash of a stored lease: an injective function of the lease. */
  datatype ETag = Digest(lease: Lease)

  datatype Handle = Handle(
    name: string,
    key: string,
    owner: string,
    token: int,
    etag: ETag,
    expiresAt: int,
    acquiredAt: int)

  datatype Config = Config(
    owner: string,
    ttl: int,
    grace: int,
    retryDelay: int,
    maxDelay: int,
    maxRetries: int)
  {
    predicate Valid() {
      owner != "" && ttl > 0 && grace >= 0 && retryDelay > 0 && maxDelay > 0
    }
  }

  datatype Observation = Observation(etag: ETag, firstSeen: int)

  function FirstLease(name: string, cfg: Config, now: int, leaseID: nat): Lease {
    Lease(name, 1, cfg.owner, leaseID, true, cfg.ttl, 1, now + cfg.ttl, now)
  }

  function ClaimedLease(existing: Lease, name: string, cfg: Config, now: int, leaseID: nat): Lease {
    Lease(name, existing.version + 1, cfg.owner, leaseID, true, cfg.ttl,
          existing.revision + 1, now + cfg.ttl, now)
  }

  function RenewedLease(existing: Lease, cfg: Config, now: int): Lease {
    existing.(held := true, duration := cfg.ttl, revision := existing.revision + 1,
    expiresAt := now + cfg.ttl)
  }

  function ReleasedLease(existing: Lease, now: int): Lease {
    existing.(held := false, revision := existing.revision + 1, expiresAt := now)
  }

  function HandleFromLease(name: string, key: string, lease: Lease, etag: ETag): Handle {
    Handle(name, key, lease.owner, lease.version, etag, lease.expiresAt, lease.acquiredAt)
  }

  predicate SameLeaseState(left: Lease, right: Lease) {
    && left.id == right.id
    && left.version == right.version
    && left.owner == right.owner
    && left.leaseID == right.leaseID
    && left.held == right.held
    && left.duration == right.duration
    && left.revision == right.revision
    && left.expiresAt == right.expiresAt
    && left.acquiredAt == right.acquiredAt
  }

  /** The duration a contender must wait out: the stored one, or its own when none is stored. */
  function WaitFor(persistedTTL: int, fallbackTTL: int): int {
    if persistedTTL <= 0 then fallbackTTL else persistedTTL
  }

  /** The locker has seen this ETag before, at a clock reading no later than now. */
  predicate Unchanged(seen: Option<Observation>, etag: ETag, now: int) {
    seen.Some? && seen.value.etag == etag && !(now < seen.value.firstSeen)
  }

  /** The verdict of canTakeOver. */
  predicate Expired(seen: Option<Observation>, etag: ETag, persistedTTL: int, fallbackTTL: int,
                    now: int, grace: int)
  {
    && Unchanged(seen, etag, now)
    && !(now < seen.value.firstSeen + WaitFor(persistedTTL, fallbackTTL) + grace)
  }

  /** What canTakeOver leaves in the observation table. */
  function AfterLook(seen: Option<Observation>, etag: ETag, now: int): Option<Observation> {
    if Unchanged(seen, etag, now) then seen else Some(Observation(etag, now))
  }
}
