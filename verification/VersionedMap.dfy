/** The one versioned map every key/value service here is supposed to look like. */
module VersionedMap {
  type Key = string
  type Value = string

  /** The version counts the writes the key has taken. */
  datatype Item = Item(value: Value, version: nat)

  type Store = map<Key, Item>

  datatype Err = OK | ErrNoKey | ErrVersion | ErrMaybe | ErrWrongLeader | ErrWrongGroup

  datatype GetReply = GetReply(value: Value, version: nat, err: Err)

  function VersionOf(m: Store, k: Key): nat {
    if k in m then m[k].version else 0
  }

  function Get(m: Store, k: Key): GetReply {
    if k in m then GetReply(m[k].value, m[k].version, OK) else GetReply("", 0, ErrNoKey)
  }

  /** A write takes effect exactly when it names the version the key has; an absent key has version 0. */
  function PutErr(m: Store, k: Key, version: nat): Err {
    if VersionOf(m, k) == version && (k in m || version == 0) then OK
    else if k in m then ErrVersion
    else ErrNoKey
  }

  function PutStore(m: Store, k: Key, v: Value, version: nat): Store {
    if PutErr(m, k, version) == OK then m[k := Item(v, version + 1)] else m
  }

  /** Versions only go up, by one for each write that is accepted. */
  lemma PutCounts(m: Store, k: Key, v: Value, version: nat, j: Key)
    ensures VersionOf(PutStore(m, k, v, version), j) ==
            VersionOf(m, j) + (if j == k && PutErr(m, k, version) == OK then 1 else 0)
  {
  }

  /**
   The version a read reports is the one, and the only one, under which the next write is accepted; reading
   again gives the value written, with one version more, and other keys do not notice.
   */
  lemma ReadThenWrite(m: Store, k: Key, v: Value, version: nat, j: Key)
    ensures var r := Get(m, k);
            && (PutErr(m, k, version) == OK <==> version == r.version)
            && Get(PutStore(m, k, v, r.version), k) == GetReply(v, r.version + 1, OK)
            && (j != k ==> Get(PutStore(m, k, v, version), j) == Get(m, j))
            && (version != r.version ==> PutStore(m, k, v, version) == m)
  {
  }
}
