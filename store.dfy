/** The two process-wide caches of lib/store.js: authenticated users and pending login
    requests, each with its own lifetimes and its own five-minute sweep. */
module Store {
  import opened Options
  import opened Ttl

  const Minute: nat := 60 * 1000

  /** Users expire an hour after they are written, or five minutes after their last read. */
  const UsersPolicy: Policy := Policy(60 * Minute, 5 * Minute)

  /** Pending requests expire ten minutes after they are written, or five minutes after
      their last read. */
  const RequestsPolicy: Policy := Policy(10 * Minute, 5 * Minute)

  /** Both caches are swept on a timer with this period. */
  const CleanUpInterval: nat := 5 * Minute

  /** The exported pair. `users` is keyed by whatever the caller passes, which for the
      normal completion path is the (possibly absent) result of a `requests` lookup. */
  class Caches<U> {
    const users: ExpiringCache<Option<string>, U>
    const requests: ExpiringCache<string, string>

    ghost predicate Valid()
      reads this
    {
      && users.policy == UsersPolicy
      && requests.policy == RequestsPolicy
      && users as object != requests as object
    }

    constructor ()
      ensures Valid() && fresh(users) && fresh(requests)
      ensures users.entries == map[] && requests.entries == map[]
    {
      users := new ExpiringCache(UsersPolicy);
      requests := new ExpiringCache(RequestsPolicy);
    }

    /** The timer callback of the `users` cache. */
    method CleanUpUsers(now: nat)
      requires Valid()
      modifies users
      ensures Valid()
      ensures users.entries == Swept(UsersPolicy, old(users.entries), now)
    {
      users.CleanUp(now);
    }

    /** The timer callback of the `requests` cache. */
    method CleanUpRequests(now: nat)
      requires Valid()
      modifies requests
      ensures Valid()
      ensures requests.entries == Swept(RequestsPolicy, old(requests.entries), now)
    {
      requests.CleanUp(now);
    }
  }

  /** A user returned from the cache was written less than an hour before, however often
      it was read in between. */
  lemma UserWithinHourOfWrite<U>(m: map<Option<string>, Entry<U>>, k: Option<string>, u: U, t: nat,
                                 ops: seq<Op<Option<string>, U>>, now: nat)
    requires NoWriteOf(ops, k)
    ensures var r := Lookup(UsersPolicy, Run(UsersPolicy, Written(m, k, u, t), ops), k, now);
            r.Some? ==> r.value == u && now - t < 60 * 60 * 1000
  {
    LatestWriteWins(UsersPolicy, m, k, u, t, ops, now);
  }

  /** A pending request returned from the cache was written less than ten minutes before. */
  lemma RequestWithinTenMinutesOfWrite(m: map<string, Entry<string>>, k: string, v: string, t: nat,
                                       ops: seq<Op<string, string>>, now: nat)
    requires NoWriteOf(ops, k)
    ensures var r := Lookup(RequestsPolicy, Run(RequestsPolicy, Written(m, k, v, t), ops), k, now);
            r.Some? ==> r.value == v && now - t < 10 * 60 * 1000
  {
    LatestWriteWins(RequestsPolicy, m, k, v, t, ops, now);
  }

  /** In either cache an entry left alone for five minutes is no longer returned. */
  lemma IdleForFiveMinutesExpires<K, V>(p: Policy, m: map<K, Entry<V>>, k: K,
                                        ops: seq<Op<K, V>>, now: nat)
    requires p == UsersPolicy || p == RequestsPolicy
    requires NoAccessOf(ops, k)
    requires k in m && m[k].lastRead + 5 * 60 * 1000 <= now
    ensures Lookup(p, Run(p, m, ops), k, now) == None
  {
    IdleEntryExpires(p, m, k, ops, now);
  }

  /** The index of the first timer tick at or after `d` (ticks at multiples of the period). */
  function FirstTickAtOrAfter(d: nat): (n: nat)
    ensures d <= n * CleanUpInterval < d + CleanUpInterval
  {
    var q := d / CleanUpInterval;
    if q * CleanUpInterval == d then q else q + 1
  }

  /** An abandoned pending request is removed by the first sweep that comes ten minutes or
      more after its write, and that sweep comes less than fifteen minutes after the write. */
  lemma AbandonedRequestRemoved(m: map<string, Entry<string>>, k: string, v: string, t: nat,
                                ops: seq<Op<string, string>>)
    requires NoWriteOf(ops, k)
    ensures var s := FirstTickAtOrAfter(t + 10 * Minute) * CleanUpInterval;
            && s < t + 15 * 60 * 1000
            && k !in Swept(RequestsPolicy, Run(RequestsPolicy, Written(m, k, v, t), ops), s)
  {
    AbandonedEntrySwept(RequestsPolicy, m, k, v, t, ops, FirstTickAtOrAfter(t + 10 * Minute) * CleanUpInterval);
  }
}
