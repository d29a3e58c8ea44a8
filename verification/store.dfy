/** The shared key-value store both lockers are built on, reduced to the few
    commands they issue. Each command is atomic at the store; a store that is
    unreachable (or a client that fails) answers every command with a fault. */
module KeyValueStore {

  datatype Option<+T> = None | Some(value: T)

  /** A stored lock: the value written under the key and the expiry (in
      seconds) it was written with. */
  datatype Entry = Entry(value: string, ttl: int)

  /** The store's keys, and whether commands reach it at all. */
  datatype Store = Store(entries: map<string, Entry>, online: bool)

  /** What a command returns: a value, or an error raised by the store or its client. */
  datatype Reply<+T> = Ok(value: T) | Fault

  /** The store rejects an `EX` argument that is not a positive number of seconds. */
  predicate ValidExpiry(ttl: int) {
    0 < ttl
  }

  /** Whether a `SET ... EX ttl` is carried out rather than rejected. */
  predicate Accepts(s: Store, ttl: int) {
    s.online && ValidExpiry(ttl)
  }

  /** Whether `key` is currently held with the value `holder`. */
  predicate HeldBy(s: Store, key: string, holder: string) {
    key in s.entries && s.entries[key].value == holder
  }

  /** Two keys built from one prefix are equal only for equal ids. */
  lemma {:induction false} PrefixCancels(p: string, a: string, b: string)
    requires p + a == p + b
    ensures a == b
  {
    assert a == (p + a)[|p|..];
    assert b == (p + b)[|p|..];
  }

  /** `SET key value NX EX ttl`: writes only when the key is absent. */
  function SetIfAbsent(s: Store, key: string, value: string, ttl: int): (Reply<bool>, Store)
  {
    if !Accepts(s, ttl) then (Fault, s)
    else if key in s.entries then (Ok(false), s)
    else (Ok(true), s.(entries := s.entries[key := Entry(value, ttl)]))
  }

  /** The server-side script `if GET(key) == expected then DEL(key) else 0`;
      answers the number of keys deleted. */
  function CompareAndDelete(s: Store, key: string, expected: string): (Reply<int>, Store)
  {
    if !s.online then (Fault, s)
    else if HeldBy(s, key, expected) then (Ok(1), s.(entries := s.entries - {key}))
    else (Ok(0), s)
  }

  /** `DEL key`: answers the number of keys deleted. */
  function Delete(s: Store, key: string): (Reply<int>, Store)
  {
    if !s.online then (Fault, s)
    else if key in s.entries then (Ok(1), s.(entries := s.entries - {key}))
    else (Ok(0), s)
  }

  /** `EXISTS key`: answers the number of the given keys present. */
  function Exists(s: Store, key: string): Reply<int>
  {
    if !s.online then Fault
    else if key in s.entries then Ok(1)
    else Ok(0)
  }

  /** `GET key`: the stored value, or nil. */
  function Get(s: Store, key: string): Reply<Option<string>>
  {
    if !s.online then Fault
    else if key in s.entries then Ok(Some(s.entries[key].value))
    else Ok(None)
  }

  /** The store dropping a key whose expiry has lapsed. This is not a command
      anyone issues; it is the external step by which a lock times out. */
  function Expire(s: Store, key: string): (s': Store)
    ensures key !in s'.entries
    ensures s'.online == s.online && s'.entries - {key} == s.entries - {key}
  {
    s.(entries := s.entries - {key})
  }
}
