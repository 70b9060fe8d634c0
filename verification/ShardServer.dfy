/**
 The shard server object: the same operations as ShardGroup, done by updating a map and two arrays
 in place, with loops over the stored pairs.
 */
module ShardServer {
  import opened RaftTypes
  import opened VersionedMap
  import G = ShardGroup

  class KVServer {
    const hash: G.Hash
    var kvMap: Store
    const shardState: array<G.ShardState>
    const cfgNum: array<nat>

    ghost predicate Valid()
      reads this
    {
      shardState.Length == G.NSHARDS && cfgNum.Length == G.NSHARDS
    }

    ghost function State(): (g: G.Group)
      requires Valid()
      reads this, shardState, cfgNum
      ensures g.Valid()
    {
      G.Group(kvMap, shardState[..], cfgNum[..])
    }

    constructor (hash: G.Hash, gid: G.Gid)
      ensures this.hash == hash && Valid() && fresh(shardState) && fresh(cfgNum) && State() == G.FreshGroup(gid)
    {
      this.hash := hash;
      kvMap := map[];
      shardState := new G.ShardState[G.NSHARDS](_ => G.NotOwned);
      cfgNum := new nat[G.NSHARDS](_ => 0);
      new;
      for s := 0 to cfgNum.Length
        invariant forall t :: 0 <= t < s ==> cfgNum[t] == G.FIRST_NUM
        invariant forall t :: 0 <= t < shardState.Length ==> shardState[t] == G.NotOwned
        invariant kvMap == map[]
      {
        cfgNum[s] := G.FIRST_NUM;
      }
      if gid == G.GID1 {
        for s := 0 to shardState.Length
          invariant forall t :: 0 <= t < s ==> shardState[t] == G.Ready
          invariant forall t :: 0 <= t < cfgNum.Length ==> cfgNum[t] == G.FIRST_NUM
          invariant kvMap == map[]
        {
          shardState[s] := G.Ready;
        }
      }
    }

    method DoGet(key: Key) returns (reply: GetReply)
      requires Valid()
      ensures reply == G.DoGet(hash, State(), key)
    {
      if shardState[G.ShardOf(hash, key)] != G.Ready {
        return GetReply("", 0, ErrWrongGroup);
      }
      if key in kvMap {
        return GetReply(kvMap[key].value, kvMap[key].version, OK);
      }
      return GetReply("", 0, ErrNoKey);
    }

    method DoPut(key: Key, value: Value, version: nat) returns (err: Err)
      requires Valid()
      modifies this`kvMap
      ensures (State(), err) == G.DoPut(hash, old(State()), key, value, version)
    {
      if shardState[G.ShardOf(hash, key)] != G.Ready {
        return ErrWrongGroup;
      }
      if key in kvMap {
        if version == kvMap[key].version {
          kvMap := kvMap[key := Item(value, kvMap[key].version + 1)];
          return OK;
        }
        return ErrVersion;
      }
      if version == 0 {
        kvMap := kvMap[key := Item(value, 1)];
        return OK;
      }
      return ErrNoKey;
    }

    /** Collect the pairs of one shard. */
    method DumpShard(shard: nat) returns (sub: Store)
      ensures sub == G.Part(hash, kvMap, shard)
    {
      sub := map[];
      var keys := kvMap.Keys;
      while keys != {}
        invariant keys <= kvMap.Keys
        invariant sub == map k | k in kvMap && k !in keys && G.ShardOf(hash, k) == shard :: kvMap[k]
        decreases |keys|
      {
        var k :| k in keys;
        if G.ShardOf(hash, k) == shard {
          sub := sub[k := kvMap[k]];
        }
        keys := keys - {k};
      }
    }

    /** Merge a dump into the map; nothing was sent if the freeze was out of date. */
    method LoadShard(dump: G.Dump)
      modifies this`kvMap
      ensures kvMap == G.Loaded(old(kvMap), dump)
    {
      if dump == None {
        return;
      }
      var sub := dump.value;
      var keys := sub.Keys;
      while keys != {}
        invariant keys <= sub.Keys
        invariant kvMap == old(kvMap) + map k | k in sub && k !in keys :: sub[k]
        decreases |keys|
      {
        var k :| k in keys;
        kvMap := kvMap[k := sub[k]];
        keys := keys - {k};
      }
      assert (map k | k in sub && k !in keys :: sub[k]) == sub;
    }

    /** Delete the pairs of one shard while ranging over the map. */
    method DeleteShardData(shard: nat)
      modifies this`kvMap
      ensures kvMap == G.Without(hash, old(kvMap), shard)
    {
      var keys := kvMap.Keys;
      while keys != {}
        invariant keys <= old(kvMap).Keys
        invariant kvMap == map k | k in old(kvMap) && (k in keys || G.ShardOf(hash, k) != shard) :: old(kvMap)[k]
        decreases |keys|
      {
        var k :| k in keys;
        if G.ShardOf(hash, k) == shard {
          kvMap := kvMap - {k};
        }
        keys := keys - {k};
      }
    }

    method DoFreezeShard(shard: nat, num: nat) returns (dump: G.Dump)
      requires Valid() && shard < G.NSHARDS
      modifies shardState, cfgNum
      ensures (State(), dump) == G.DoFreeze(hash, old(State()), shard, num)
    {
      if num < cfgNum[shard] {
        return None;
      }
      shardState[shard] := G.Frozen;
      cfgNum[shard] := num;
      var sub := DumpShard(shard);
      dump := Some(sub);
    }

    method DoInstallShard(shard: nat, dump: G.Dump, num: nat)
      requires Valid() && shard < G.NSHARDS
      modifies this`kvMap, shardState, cfgNum
      ensures State() == G.DoInstall(old(State()), shard, dump, num)
    {
      if num <= cfgNum[shard] {
        return;
      }
      LoadShard(dump);
      shardState[shard] := G.Ready;
      cfgNum[shard] := num;
    }

    method DoDeleteShard(shard: nat, num: nat)
      requires Valid() && shard < G.NSHARDS
      modifies this`kvMap, shardState, cfgNum
      ensures State() == G.DoDelete(hash, old(State()), shard, num)
    {
      if num < cfgNum[shard] {
        return;
      }
      DeleteShardData(shard);
      shardState[shard] := G.NotOwned;
      cfgNum[shard] := num;
    }
  }
}
