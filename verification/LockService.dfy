/**
 The lock service the worker calls, over sequences of calls: an acquired key
 turns every other caller away for its whole time to live, and it is the key the
 interleaved protocol reasons about.
 */
module LockService {
  import opened Domain
  import opened Stores
  import opened JobServices
  import opened Tables
  import opened UseCases
  import opened Protocol

  /** Two callers ask for a key one after the other, with calls on other keys, or none, between them. */
  method AcquireTwice(locks: RedisLockService, key: JobId, ttl: Time, now: Time, other: JobId, ttl': Time, t: Time)
    returns (first: bool, second: bool)
    requires other != key
    modifies locks
    ensures first ==> (second <==> t >= now + ttl)
    ensures first && !second ==> locks.keys == old(locks.keys)[key := now + ttl] - {other}
    ensures first && second ==> locks.keys == old(locks.keys)[key := t + ttl'] - {other}
    ensures !first ==> key in old(locks.keys) && now < old(locks.keys)[key] && (second <==> t >= old(locks.keys)[key])
  {
    first := locks.AcquireLock(key, ttl, now);
    locks.ReleaseLock(other);
    second := locks.AcquireLock(key, ttl', t);
  }

  /** After a release anyone can have the key, whoever held it and however long it had left. */
  method ReleaseThenAcquire(locks: RedisLockService, key: JobId, ttl: Time, now: Time) returns (acquired: bool)
    modifies locks
    ensures acquired && locks.keys == old(locks.keys)[key := now + ttl]
  {
    locks.ReleaseLock(key);
    acquired := locks.AcquireLock(key, ttl, now);
  }

  /** The protocol's lock key of job `j` is the service's entry. */
  predicate SameKey(keys: map<JobId, Time>, j: JobId, c: Cell) {
    c.lock == if j in keys then Some(keys[j]) else None
  }

  /** The service turns a worker away exactly when the protocol's delivery finds the key taken. */
  lemma BusyIsTheProtocolsBusy(locks: RedisLockService, j: JobId, c: Cell, now: Time, i: nat)
    requires SameKey(locks.keys, j, c) && i < |c.handlers| && c.handlers[i].Delivered?
    ensures locks.Free(j, now) <==> KeyFree(c, now)
    ensures locks.Free(j, now) <==> AdvanceHandler(c, now, i).handlers[i] == Locked(now + LOCK_TTL)
    ensures !locks.Free(j, now) <==> AdvanceHandler(c, now, i).handlers[i] == Ended(Uncounted, Acked)
    ensures locks.Free(j, now) ==> SameKey(locks.keys[j := now + 60], j, AdvanceHandler(c, now, i))
    ensures !locks.Free(j, now) ==> SameKey(locks.keys, j, AdvanceHandler(c, now, i))
  {
  }

  /**
   A worker run answers `LockBusy`, and touches nothing, exactly when the
   protocol's delivery finds the key taken; otherwise the key is gone afterwards
   as it is after the protocol's release.
   */
  method ProcessMeetsTheProtocolsKey(worker: JobProcessorService, j: JobId, reason: string, requestedBy: string,
                                     now: Time, startedAt: Time, finishedAt: Time, ghost c: Cell)
    returns (r: Outcome)
    requires worker.Wired() && worker.bus.connected && SameKey(worker.locks.keys, j, c)
    modifies worker.db, worker.bus, worker.locks
    ensures r.LockBusy? <==> !KeyFree(c, now)
    ensures r.LockBusy? ==> worker.db.Contents() == old(worker.db.Contents())
    ensures r.LockBusy? ==> worker.locks.keys == old(worker.locks.keys)
    ensures !r.LockBusy? ==> SameKey(worker.locks.keys, j, c.(lock := None))
  {
    r := worker.Process(j, reason, requestedBy, now, startedAt, finishedAt);
  }
}
