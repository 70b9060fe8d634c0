/** The plain key/value server and the clerks that talk to it and to its replicated counterpart. */
module KvService {
  import opened RaftTypes
  import opened VersionedMap
  import K = KvClerk

  class KVServer {
    var kvMap: Store

    constructor ()
      ensures kvMap == map[]
    {
      kvMap := map[];
    }

    method Get(key: Key) returns (reply: GetReply)
      ensures reply == VersionedMap.Get(kvMap, key)
    {
      if key in kvMap {
        return GetReply(kvMap[key].value, kvMap[key].version, OK);
      }
      return GetReply("", 0, ErrNoKey);
    }

    method Put(key: Key, value: Value, version: nat) returns (err: Err)
      modifies this
      ensures kvMap == PutStore(old(kvMap), key, value, version) && err == PutErr(old(kvMap), key, version)
    {
      if key in kvMap {
        if version == kvMap[key].version {
          kvMap := kvMap[key := Item(value, kvMap[key].version + 1)];
          return OK;
        }
        return ErrVersion;
      }
      if version == 0 {
        kvMap := kvMap[key := Item(value, 1)];
        return OK;
      }
      return ErrNoKey;
    }
  }

  /** What the network brings back for the calls made one after the other; None is a lost message. */
  type Answers = seq<Option<Err>>

  /** The answer ends the call: it arrived, and it does not send the clerk to another server. */
  predicate Usable(a: Option<Err>) {
    a.Some? && a.value != ErrWrongLeader
  }

  function Following(leader: nat, servers: nat): (r: nat)
    requires servers > 0
    ensures r < servers
  {
    (leader + 1) % servers
  }

  /** The server k places on. */
  function Onward(leader: nat, servers: nat, k: nat): nat
    requires servers > 0
  {
    if k == 0 then leader else Following(Onward(leader, servers, k - 1), servers)
  }

  class Clerk {
    const servers: nat
    var leader: nat

    predicate Valid()
      reads this
    {
      leader < servers
    }

    constructor (servers: nat, leader: nat)
      requires leader < servers
      ensures this.servers == servers && this.leader == leader && Valid()
    {
      this.servers, this.leader := servers, leader;
    }

    /** Try one server after the other until one answers; the verdict depends on whether it was the first try. */
    method Put(answers: Answers) returns (err: Err, attempt: nat)
      requires Valid() && exists i :: 0 <= i < |answers| && Usable(answers[i])
      modifies this
      ensures Valid() && attempt < |answers| && Usable(answers[attempt])
      ensures forall j :: 0 <= j < attempt ==> !Usable(answers[j])
      ensures err == K.Verdict(attempt, answers[attempt].value)
      ensures leader == Onward(old(leader), servers, attempt)
    {
      hide Following;
      attempt := 0;
      if Usable(answers[0]) {
        return answers[0].value, 0;
      }
      leader := Following(leader, servers);
      attempt := 1;
      while true
        invariant Valid() && 1 <= attempt < |answers|
        invariant forall j :: 0 <= j < attempt ==> !Usable(answers[j])
        invariant leader == Onward(old(leader), servers, attempt)
        decreases |answers| - attempt
      {
        var reply := answers[attempt];
        if reply.Some? {
          if reply.value == ErrVersion {
            return ErrMaybe, attempt;
          } else if reply.value != ErrWrongLeader {
            return reply.value, attempt;
          }
        }
        leader := Following(leader, servers);
        attempt := attempt + 1;
      }
    }
  }
}
