/**
 * The shared key-value store the signaling server keeps its sessions in
 * (Redis in the deployment): string keys, string values, and a time-to-live
 * per key. Time is an abstract clock in seconds; a key written with
 * `SET key value EX ttl` at time `now` answers `GET` strictly before
 * `now + ttl` and behaves as missing from then on.
 */
module KeyValueStore {
  import opened Wrappers

  datatype Entry = Entry(value: string, expiresAt: int)

  type Store = map<string, Entry>

  /** The key is present and has not expired at time `now`. */
  predicate Live(m: Store, now: int, key: string) {
    key in m && now < m[key].expiresAt
  }

  /** `GET key`: the value of a live key, nothing for a missing or expired one. */
  function Get(m: Store, now: int, key: string): (r: Option<string>)
    ensures r.Some? <==> Live(m, now, key)
    ensures r.Some? ==> r.value == m[key].value
  {
    if Live(m, now, key) then Some(m[key].value) else None
  }

  /** `SETEX key ttl value`: (re)writes the key with a fresh expiry; no other key changes. */
  function SetEx(m: Store, now: int, key: string, ttl: nat, value: string): (r: Store)
    ensures r.Keys == m.Keys + {key}
    ensures forall k :: k in m && k != key ==> r[k] == m[k]
  {
    m[key := Entry(value, now + ttl)]
  }

  /** `DEL key`: removes the key whether or not it is present; no other key changes. */
  function Del(m: Store, key: string): (r: Store)
    ensures r.Keys == m.Keys - {key}
    ensures forall k :: k in r ==> r[k] == m[k]
  {
    m - {key}
  }

  /** A written key reads back its value until its time-to-live has run out. */
  lemma GetAfterSetEx(m: Store, now: int, key: string, ttl: nat, value: string, later: int)
    ensures Get(SetEx(m, now, key, ttl, value), later, key)
         == if later < now + ttl then Some(value) else None
  {
  }

  /** Writing one key leaves every other key's reading unchanged. */
  lemma GetAfterSetExOther(m: Store, now: int, key: string, ttl: nat, value: string, t: int, other: string)
    requires other != key
    ensures Get(SetEx(m, now, key, ttl, value), t, other) == Get(m, t, other)
  {
  }

  /** A deleted key reads as missing, at any time. */
  lemma GetAfterDel(m: Store, key: string, t: int)
    ensures Get(Del(m, key), t, key) == None
  {
  }

  /** Deleting one key leaves every other key's reading unchanged. */
  lemma GetAfterDelOther(m: Store, key: string, t: int, other: string)
    requires other != key
    ensures Get(Del(m, key), t, other) == Get(m, t, other)
  {
  }

  /** Of two writes to one key, the later one wins. */
  lemma LastWriteWins(m: Store, now1: int, now2: int, key: string, ttl: nat, v1: string, v2: string, t: int)
    ensures Get(SetEx(SetEx(m, now1, key, ttl, v1), now2, key, ttl, v2), t, key)
         == Get(SetEx(m, now2, key, ttl, v2), t, key)
  {
  }
}
