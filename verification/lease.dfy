/** In-memory execution leases: one holder per key, expiry by an injected clock (internal/executor/lease.go). */
module Leases {
  import opened Domain

  datatype LeaseState = LeaseState(id: string, owner: string, operation: OperationID, acquiredAt: int, expiresAt: int)

  datatype LeaseError = Held | Expired | BadRequest

  class MemoryLeases {
    var held: map<string, LeaseState>
    const owner: string
    const ttl: int
    /** Every ID that was ever handed out. */
    ghost var issued: set<string>
    /** The latest clock reading that any call has seen. */
    ghost var clock: int

    ghost predicate Valid()
      reads this
    {
      && ttl > 0 && ValidText(owner)
      && (forall key :: key in held ==> held[key].id in issued)
      && (forall a, b :: a in held && b in held && a != b ==> held[a].id != held[b].id)
    }

    constructor (owner: string, ttl: int)
      requires ttl > 0 && ValidText(owner)
      ensures Valid() && held == map[] && issued == {}
    {
      this.owner, this.ttl, held, issued, clock := owner, ttl, map[], {}, 0;
    }

    /** Drops a lease that has run out; its handle, if it still owned the key, no longer does. */
    method Evict(key: string)
      requires Valid() && key in held && held[key].expiresAt <= clock
      modifies this`held
      ensures Valid() && held == old(held) - {key}
      ensures forall h: MemoryLease | old(allocated(h)) && h.manager == this && old(h.Valid()) ::
                h.Valid() && (!old(h.Live()) ==> !h.Live()) && (h.key == key ==> !h.Live())
    {
      held := held - {key};
    }

    /** Records a lease of a free key under a fresh ID and hands it out. */
    method Grant(key: string, state: LeaseState, expired: Option<LeaseState>) returns (lease: MemoryLease)
      requires Valid() && key !in held && state.id !in issued
      modifies this`held, this`issued
      ensures Valid() && held == old(held)[key := state] && issued == old(issued) + {state.id}
      ensures fresh(lease) && lease.manager == this && lease.key == key && !lease.released
      ensures lease.state == state && lease.previousExpired == expired
      ensures forall h: MemoryLease | old(allocated(h)) && h.manager == this && old(h.Valid()) ::
                h.Valid() && h.state.id != state.id && (!old(h.Live()) ==> !h.Live())
    {
      held := held[key := state];
      issued := issued + {state.id};
      lease := new MemoryLease(this, key, state, expired);
    }

    /** Acquire: now is the clock's reading and freshId the ID source's answer. */
    method Acquire(key: string, operation: OperationID, now: int, freshId: string)
      returns (result: Result<MemoryLease, LeaseError>)
      requires Valid() && clock <= now && freshId !in issued
      modifies this
      ensures Valid() && old(issued) <= issued && clock == now
      ensures result == Err(Held) <==>
                key != "" && ValidIdentifier(operation) && now != 0 && key in old(held)
                && old(held)[key].expiresAt > now
      ensures result.Ok? <==>
                && key != "" && ValidIdentifier(operation) && now != 0 && ValidText(freshId)
                && (key in old(held) ==> old(held)[key].expiresAt <= now)
      ensures result.Err? && result.error != Held ==> result.error == BadRequest
      ensures result.Err? ==>
                held == old(held) || (key in old(held) && old(held)[key].expiresAt <= now && held == old(held) - {key})
      ensures result.Ok? ==>
                && fresh(result.value) && result.value.manager == this && result.value.key == key
                && !result.value.released
                && result.value.state == LeaseState(freshId, owner, operation, now, now + ttl)
                && held == old(held)[key := result.value.state]
                && issued == old(issued) + {freshId}
                && result.value.previousExpired == if key in old(held) then Some(old(held)[key]) else None
      ensures forall h: MemoryLease | old(allocated(h)) && h.manager == this && old(h.Valid()) ::
                h.Valid() && (!old(h.Live()) ==> !h.Live())
      ensures result.Ok? ==> forall h: MemoryLease | old(allocated(h)) && h.manager == this && old(h.Valid()) ::
                h.state.id != freshId && (h.key == key ==> !h.Live())
    {
      hide ValidText, ValidIdentifier;
      clock := now;
      if key == "" || !ValidIdentifier(operation) || now == 0 { return Err(BadRequest); }
      var expired := None;
      if key in held {
        var current := held[key];
        if current.expiresAt > now { return Err(Held); }
        expired := Some(current);
        Evict(key);
      }
      if !ValidText(freshId) { return Err(BadRequest); }
      var lease := Grant(key, LeaseState(freshId, owner, operation, now, now + ttl), expired);
      result := Ok(lease);
    }
  }

  class MemoryLease {
    const manager: MemoryLeases
    const key: string
    const previousExpired: Option<LeaseState>
    var state: LeaseState
    var released: bool

    constructor (manager: MemoryLeases, key: string, state: LeaseState, previousExpired: Option<LeaseState>)
      ensures this.manager == manager && this.key == key && this.state == state && !released
      ensures this.previousExpired == previousExpired
    {
      this.manager, this.key, this.state, this.previousExpired, released := manager, key, state, previousExpired, false;
    }

    /** The handle still owns its key. */
    ghost predicate Live()
      reads this, manager
    {
      !released && key in manager.held && manager.held[key].id == state.id
    }

    /** A live handle knows its lease exactly; one that lost its key without being released has run out. */
    ghost predicate Valid()
      reads this, manager
    {
      && manager.Valid() && state.id in manager.issued
      && (Live() ==> manager.held[key] == state)
      && (!Live() && !released ==> state.expiresAt <= manager.clock)
      && (released ==> key !in manager.held || manager.held[key].id != state.id)
    }

    /** Another handle of the same manager, for another lease. */
    ghost predicate Rival(h: MemoryLease)
      reads this, h
    {
      h != this && h.manager == manager && h.state.id != state.id
    }

    /** Renew succeeds exactly for a live, unexpired handle, and then strictly extends its expiry. */
    method Renew(now: int) returns (result: Result<LeaseState, LeaseError>)
      requires Valid() && manager.clock <= now
      modifies this`state, manager`held, manager`clock
      ensures Valid() && manager.clock == now
      ensures result.Ok? <==> old(Live()) && old(state).expiresAt > now
      ensures result.Ok? ==>
                && Live() && state == result.value
                && state == old(state).(expiresAt := state.expiresAt)
                && state.expiresAt > old(state).expiresAt && state.expiresAt >= now + manager.ttl
                && (now + manager.ttl > old(state).expiresAt ==> state.expiresAt == now + manager.ttl)
                && (now + manager.ttl <= old(state).expiresAt ==> state.expiresAt == old(state).expiresAt + manager.ttl)
                && manager.held == old(manager.held)[key := state]
      ensures result.Err? ==>
                && result.error == Expired && state == old(state) && !Live()
                && manager.held == if old(Live()) then old(manager.held) - {key} else old(manager.held)
      ensures forall h: MemoryLease | old(allocated(h)) && Rival(h) && old(h.Valid()) ::
                h.Valid() && (!old(h.Live()) ==> !h.Live())
    {
      if released { manager.clock := now; return Err(Expired); }
      manager.clock := now;
      if key !in manager.held || manager.held[key].id != state.id || manager.held[key].expiresAt <= now {
        if key in manager.held && manager.held[key].id == state.id {
          manager.held := manager.held - {key};
        }
        return Err(Expired);
      }
      var current := manager.held[key];
      var expiresAt := now + manager.ttl;
      if expiresAt <= current.expiresAt {
        expiresAt := current.expiresAt + manager.ttl;
      }
      current := current.(expiresAt := expiresAt);
      manager.held := manager.held[key := current];
      state := current;
      result := Ok(current);
    }

    /**
     Release reports expiry only when the lease has really run out by now, which is what the reducer
     demands of the LEASE_EXPIRED event that the executor then appends.
     */
    method Release(now: int) returns (expired: bool)
      requires Valid() && manager.clock <= now
      modifies this`released, manager`held, manager`clock
      ensures Valid() && released && !Live() && manager.clock == now
      ensures expired <==> !old(released) && (!old(Live()) || state.expiresAt <= now)
      ensures expired ==> state.expiresAt <= now
      ensures manager.held == if old(Live()) then old(manager.held) - {key} else old(manager.held)
      ensures forall h: MemoryLease | old(allocated(h)) && Rival(h) && old(h.Valid()) ::
                h.Valid() && (!old(h.Live()) ==> !h.Live())
    {
      manager.clock := now;
      if released { return false; }
      if key !in manager.held || manager.held[key].id != state.id {
        released := true;
        return true;
      }
      expired := manager.held[key].expiresAt <= now;
      manager.held := manager.held - {key};
      released := true;
    }
  }
}
