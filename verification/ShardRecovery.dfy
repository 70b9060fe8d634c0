/** Completing a migration that was interrupted anywhere. */
module ShardRecovery {
  import opened RaftTypes
  import opened ShardGroup
  import opened ShardControl
  import opened ShardMigration
  import opened ShardSafety

  /** The published configuration and the one after it are known under their own numbers. */
  predicate Neighbours(k: Core) {
    && k.published in k.accepted && k.accepted[k.published].num == k.published
    && k.published + 1 in k.accepted && k.accepted[k.published + 1].num == k.published + 1
  }

  /** A migration from the published configuration to the next may be begun. */
  lemma FromPublished(k: Core)
    requires CoreValid(k) && Neighbours(k)
    ensures StartOk(k, k.accepted[k.published], k.accepted[k.published + 1])
  {
    var cur, n := k.accepted[k.published], k.accepted[k.published + 1];
    forall t: nat | t < NSHARDS
      ensures Aligned(k, cur, n, t)
    {
    }
  }

  /** A controller that waits for a call of the move of shard s. */
  function At(cur: Config, new_: Config, s: nat, r: Request): Controller {
    Migrating(cur, new_, s, Some(r))
  }

  /** Move one shard: freeze the source, install at the destination, delete at the source. */
  method MoveShard(k: Core, s: nat) returns (k': Core)
    requires CoreInv(k) && s < NSHARDS && Neighbours(k) && Moving(k, k.published + 1, s)
    ensures CoreInv(k') && k' == k.(groups := k'.groups) && Lasting(k, k')
    ensures Moving(k', k.published + 1, s) && Cleared(k', s, k.published + 1)
  {
    hide CoreInv, Lasting, AnswerOk, RequestOk, Cleared, StartOk;
    CoreInvMeansValid(k);
    var cur, new_ := k.accepted[k.published], k.accepted[k.published + 1];
    var src, dst, num := cur.shards[s], new_.shards[s], new_.num;

    FromPublished(k);
    FirstMoveOk(k, cur, new_, s);
    FreezeExecuted(k, src, s, num);
    var frozen := DoFreeze(k.hash, GroupIn(k, src), s, num);
    var k1 := WithGroup(k, src, frozen.0);
    CoreInvMeansValid(k1);

    FromPublished(k1);
    NextCallOk(k1, At(cur, new_, s, Freeze(src, s, num)), Answer(Freeze(src, s, num), frozen.1));
    InstallExecuted(k1, dst, s, num, frozen.1);
    var k2 := WithGroup(k1, dst, DoInstall(GroupIn(k1, dst), s, frozen.1, num));
    CoreInvMeansValid(k2);

    FromPublished(k2);
    NextCallOk(k2, At(cur, new_, s, Install(dst, s, num, frozen.1)), Answer(Install(dst, s, num, frozen.1), None));
    DeleteExecuted(k2, src, s, num);
    k' := WithGroup(k2, src, DoDelete(k2.hash, GroupIn(k2, src), s, num));
    CoreInvMeansValid(k');
    FromPublished(k');
    NextCallOk(k', At(cur, new_, s, Delete(src, s, num)), Answer(Delete(src, s, num), None));
    LastingChain(k, k1, k2);
    LastingChain(k, k2, k');
  }

  lemma LastingChain(a: Core, b: Core, c: Core)
    requires CoreValid(a) && CoreValid(b) && CoreValid(c) && Lasting(a, b) && Lasting(b, c)
    ensures Lasting(a, c)
  {
    hide Cleared, DumpOk;
  }

  /**
   Running the migration once more from the start, from whatever state an interrupted one has left,
   completes it: publishing the next configuration then finds every shard at its new home, with the
   pairs the clients had.
   */
  method Migrate(k: Core) returns (k': Core)
    requires CoreInv(k) && Neighbours(k)
    ensures k' == k.(groups := k'.groups, published := k.published + 1) && CoreInv(k')
    ensures forall s: nat :: s < NSHARDS ==> AtHome(k', s)
  {
    hide CoreInv, Lasting, Cleared, DoneBelow, AtHome, StartOk;
    CoreInvMeansValid(k);
    k' := k;
    ghost var num := k.published + 1;
    NothingDoneYet(k, num);
    for s := 0 to NSHARDS
      invariant k' == k.(groups := k'.groups) && CoreInv(k') && CoreValid(k') && DoneBelow(k', num, s)
    {
      var cur, new_ := k.accepted[k.published], k.accepted[k.published + 1];
      if cur.shards[s] == new_.shards[s] {
        FromPublished(k');
        StayingShard(k', cur, new_, s);
      } else {
        var before := k';
        k' := MoveShard(before, s);
        CoreInvMeansValid(k');
        DoneLasts(before, k', num, s);
        ShardDone(k', num, s);
      }
    }
    var moved := k';
    k' := moved.(published := k.published + 1);
    PublishKeeps(moved, k');
    AllHome(moved, k');
  }

  lemma AllHome(k: Core, k': Core)
    requires CoreInv(k) && k.published + 1 in k.accepted && k' == k.(published := k.published + 1) && CoreInv(k')
    requires DoneBelow(k, k.published + 1, NSHARDS)
    ensures forall s: nat :: s < NSHARDS ==> AtHome(k', s)
  {
    forall s: nat | s < NSHARDS
      ensures AtHome(k', s)
    {
      PublishShardOk(k, k', s);
    }
  }
}
