/** An expiring key/value cache with a write-based and a read-based time to live and an
    explicit sweep, as the `transitory` caches in lib/store.js are configured.
    Time is the millisecond clock reading `now`, passed to every operation. */
module Ttl {
  import opened Options

  /** The two lifetimes, in milliseconds. */
  datatype Policy = Policy(writeTtl: nat, readTtl: nat)

  /** A stored value with the time of its last write and of its last successful read. */
  datatype Entry<V> = Entry(value: V, written: nat, lastRead: nat)

  /** An entry is live until `writeTtl` after its write and until `readTtl` after its
      last read, whichever comes first. */
  predicate Live<V>(p: Policy, e: Entry<V>, now: nat) {
    now < e.written + p.writeTtl && now < e.lastRead + p.readTtl
  }

  /** What `get` returns: the stored value when the entry is live, otherwise absent. */
  function Lookup<K, V>(p: Policy, m: map<K, Entry<V>>, k: K, now: nat): (r: Option<V>)
    ensures r.Some? <==> k in m && Live(p, m[k], now)
    ensures r.Some? ==> r.value == m[k].value
  {
    if k in m && Live(p, m[k], now) then Some(m[k].value) else None
  }

  /** The entries after `set(k, v)`: a fresh write stamp and a fresh read stamp for `k`. */
  function Written<K, V>(m: map<K, Entry<V>>, k: K, v: V, now: nat): (r: map<K, Entry<V>>)
    ensures r.Keys == m.Keys + {k}
    ensures r[k].value == v && r[k].written == now && r[k].lastRead == now
    ensures forall j :: j in m && j != k ==> r[j] == m[j]
  {
    m[k := Entry(v, now, now)]
  }

  /** The entries after `get(k)`: a successful read moves only the read stamp. */
  function Touched<K, V>(p: Policy, m: map<K, Entry<V>>, k: K, now: nat): (r: map<K, Entry<V>>)
    ensures r.Keys == m.Keys
    ensures forall j :: j in m ==> r[j].value == m[j].value && r[j].written == m[j].written
    ensures forall j :: j in m && (j != k || !Live(p, m[j], now)) ==> r[j] == m[j]
    ensures Lookup(p, m, k, now).Some? ==> r[k].lastRead == now
  {
    if k in m && Live(p, m[k], now) then m[k := m[k].(lastRead := now)] else m
  }

  /** The entries after `cleanUp()`: exactly the live ones remain, unchanged. */
  function Swept<K, V>(p: Policy, m: map<K, Entry<V>>, now: nat): (r: map<K, Entry<V>>)
    ensures forall k :: k in r ==> k in m && Live(p, m[k], now) && r[k] == m[k]
    ensures forall k :: k in m && Live(p, m[k], now) ==> k in r
  {
    map k | k in m && Live(p, m[k], now) :: m[k]
  }

  /** One cache operation stamped with the time it happens. */
  datatype Op<K, V> = Write(key: K, value: V, at: nat) | Read(key: K, at: nat) | Sweep(at: nat)

  function Apply<K, V>(p: Policy, m: map<K, Entry<V>>, op: Op<K, V>): map<K, Entry<V>> {
    match op
    case Write(k, v, t) => Written(m, k, v, t)
    case Read(k, t) => Touched(p, m, k, t)
    case Sweep(t) => Swept(p, m, t)
  }

  /** The entries after a sequence of operations, first to last. */
  function Run<K, V>(p: Policy, m: map<K, Entry<V>>, ops: seq<Op<K, V>>): map<K, Entry<V>>
    decreases |ops|
  {
    if ops == [] then m else Run(p, Apply(p, m, ops[0]), ops[1..])
  }

  ghost predicate NoWriteOf<K, V>(ops: seq<Op<K, V>>, k: K) {
    forall i :: 0 <= i < |ops| ==> !(ops[i].Write? && ops[i].key == k)
  }

  ghost predicate NoAccessOf<K, V>(ops: seq<Op<K, V>>, k: K) {
    forall i :: 0 <= i < |ops| ==> ops[i].Sweep? || ops[i].key != k
  }

  /** Without a new `set` of `k`, the value and the write stamp of `k` survive every other
      operation, reads included; the entry can only disappear. */
  lemma {:induction false} WriteStampSurvives<K, V>(p: Policy, m: map<K, Entry<V>>, ops: seq<Op<K, V>>, k: K)
    requires NoWriteOf(ops, k)
    ensures k in Run(p, m, ops) ==>
      k in m && Run(p, m, ops)[k].value == m[k].value && Run(p, m, ops)[k].written == m[k].written
    decreases |ops|
  {
    if ops != [] {
      assert NoWriteOf(ops[1..], k) by {
        forall i | 0 <= i < |ops[1..]| ensures !(ops[1..][i].Write? && ops[1..][i].key == k) {
          assert ops[1..][i] == ops[i + 1];
        }
      }
      WriteStampSurvives(p, Apply(p, m, ops[0]), ops[1..], k);
    }
  }

  /** Without any `set` or `get` of `k`, its entry stays exactly as it was, or disappears. */
  lemma {:induction false} IdleEntryFrozen<K, V>(p: Policy, m: map<K, Entry<V>>, ops: seq<Op<K, V>>, k: K)
    requires NoAccessOf(ops, k)
    ensures k in Run(p, m, ops) ==> k in m && Run(p, m, ops)[k] == m[k]
    decreases |ops|
  {
    if ops != [] {
      assert NoAccessOf(ops[1..], k) by {
        forall i | 0 <= i < |ops[1..]| ensures ops[1..][i].Sweep? || ops[1..][i].key != k {
          assert ops[1..][i] == ops[i + 1];
        }
      }
      IdleEntryFrozen(p, Apply(p, m, ops[0]), ops[1..], k);
    }
  }

  /** While an entry is returned, it holds the value of the most recent `set`, and no read
      in between can make it outlive `writeTtl` after that `set`. */
  lemma LatestWriteWins<K, V>(p: Policy, m: map<K, Entry<V>>, k: K, v: V, t: nat,
                              ops: seq<Op<K, V>>, now: nat)
    requires NoWriteOf(ops, k)
    ensures var r := Lookup(p, Run(p, Written(m, k, v, t), ops), k, now);
            r.Some? ==> r.value == v && now < t + p.writeTtl
  {
    WriteStampSurvives(p, Written(m, k, v, t), ops, k);
  }

  /** An entry neither written nor read for `readTtl` is not returned. */
  lemma IdleEntryExpires<K, V>(p: Policy, m: map<K, Entry<V>>, k: K, ops: seq<Op<K, V>>, now: nat)
    requires NoAccessOf(ops, k)
    requires k in m && m[k].lastRead + p.readTtl <= now
    ensures Lookup(p, Run(p, m, ops), k, now) == None
  {
    IdleEntryFrozen(p, m, ops, k);
  }

  /** A key written at `t` and never written again is gone after any sweep at or after
      `t + writeTtl`: abandoned entries cannot pile up past the next sweep. */
  lemma AbandonedEntrySwept<K, V>(p: Policy, m: map<K, Entry<V>>, k: K, v: V, t: nat,
                                  ops: seq<Op<K, V>>, s: nat)
    requires NoWriteOf(ops, k)
    requires t + p.writeTtl <= s
    ensures k !in Swept(p, Run(p, Written(m, k, v, t), ops), s)
  {
    WriteStampSurvives(p, Written(m, k, v, t), ops, k);
  }

  /** Sweeping never changes what a later `get` returns: expiry is decided by the time
      stamps, and a sweep only removes what no later `get` could return. */
  lemma SweepUnobservable<K, V>(p: Policy, m: map<K, Entry<V>>, t: nat, k: K, now: nat)
    requires t <= now
    ensures Lookup(p, Swept(p, m, t), k, now) == Lookup(p, m, k, now)
  {
  }

  /** Dropping one expired entry, as a cache may do when a get finds it expired, never
      changes what a later `get` returns either. */
  lemma LazyRemovalUnobservable<K, V>(p: Policy, m: map<K, Entry<V>>, k: K, t: nat, j: K, now: nat)
    requires k in m && !Live(p, m[k], t) && t <= now
    ensures Lookup(p, m - {k}, j, now) == Lookup(p, m, j, now)
  {
  }

  /** A second sweep at the same time removes nothing more. */
  lemma SweepIdempotent<K, V>(p: Policy, m: map<K, Entry<V>>, now: nat)
    ensures Swept(p, Swept(p, m, now), now) == Swept(p, m, now)
  {
  }

  /** The cache object: its entries are updated in place by `Set`, `Get` and `CleanUp`. */
  class ExpiringCache<K(==), V> {
    const policy: Policy
    var entries: map<K, Entry<V>>

    constructor (policy: Policy)
      ensures this.policy == policy && entries == map[]
    {
      this.policy := policy;
      entries := map[];
    }

    method Set(k: K, v: V, now: nat)
      modifies this
      ensures entries == Written(old(entries), k, v, now)
    {
      entries := entries[k := Entry(v, now, now)];
    }

    method Get(k: K, now: nat) returns (r: Option<V>)
      modifies this
      ensures r == Lookup(policy, old(entries), k, now)
      ensures entries == Touched(policy, old(entries), k, now)
    {
      if k in entries && Live(policy, entries[k], now) {
        r := Some(entries[k].value);
        entries := entries[k := entries[k].(lastRead := now)];
      } else {
        r := None;
      }
    }

    method CleanUp(now: nat)
      modifies this
      ensures entries == Swept(policy, old(entries), now)
    {
      entries := map k | k in entries && Live(policy, entries[k], now) :: entries[k];
    }
  }
}
