/** A shard configuration as an object, and the in-place balancing of it. */
module ShardCfg {
  import opened ShardBalance

  /** The keys of a map in increasing order, whatever order they are met in. */
  method SortedKeys(keys: set<Gid>) returns (r: seq<Gid>)
    ensures forall g :: g in r <==> g in keys
    ensures forall i, j :: 0 <= i < j < |r| ==> r[i] < r[j]
  {
    r := [];
    var rest := keys;
    while rest != {}
      invariant rest <= keys
      invariant forall g :: g in r <==> g in keys && g !in rest
      invariant forall i, j :: 0 <= i < j < |r| ==> r[i] < r[j]
      decreases |rest|
    {
      var g :| g in rest;
      r := Insert(r, g);
      rest := rest - {g};
    }
  }

  method Insert(s: seq<Gid>, g: Gid) returns (r: seq<Gid>)
    requires g !in s && forall i, j :: 0 <= i < j < |s| ==> s[i] < s[j]
    ensures forall h :: h in r <==> h in s || h == g
    ensures forall i, j :: 0 <= i < j < |r| ==> r[i] < r[j]
  {
    var i := 0;
    while i < |s| && s[i] < g
      invariant i <= |s| && forall j :: 0 <= j < i ==> s[j] < g
    {
      i := i + 1;
    }
    r := s[..i] + [g] + s[i..];
    assert s == s[..i] + s[i..];
  }

  /** Among the first i groups, g is the first with the greatest count n. */
  ghost predicate Top(shards: seq<Gid>, sorted: seq<Gid>, i: nat, g: int, n: int)
    requires i <= |sorted|
  {
    && (exists j :: 0 <= j < i && sorted[j] == g)
    && g >= 0 && n == Count(shards, g)
    && forall j :: 0 <= j < i ==> Count(shards, sorted[j]) < n || (Count(shards, sorted[j]) == n && g <= sorted[j])
  }

  /** Among the first i groups, g is the first with the smallest count n. */
  ghost predicate Bottom(shards: seq<Gid>, sorted: seq<Gid>, i: nat, g: int, n: int)
    requires i <= |sorted|
  {
    && (exists j :: 0 <= j < i && sorted[j] == g)
    && g >= 0 && n == Count(shards, g)
    && forall j :: 0 <= j < i ==> n < Count(shards, sorted[j]) || (Count(shards, sorted[j]) == n && g <= sorted[j])
  }

  lemma TopIsMost(shards: seq<Gid>, sorted: seq<Gid>, groups: set<Gid>, g: int, n: int)
    requires Top(shards, sorted, |sorted|, g, n) && forall h: Gid :: h in sorted <==> h in groups
    ensures IsMost(shards, groups, g)
  {
    forall h | h in groups
      ensures Count(shards, g) > Count(shards, h) || (Count(shards, g) == Count(shards, h) && g <= h)
    {
      assert h in sorted;
    }
  }

  lemma BottomIsLeast(shards: seq<Gid>, sorted: seq<Gid>, groups: set<Gid>, g: int, n: int)
    requires Bottom(shards, sorted, |sorted|, g, n) && forall h: Gid :: h in sorted <==> h in groups
    ensures IsLeast(shards, groups, g)
  {
    forall h | h in groups
      ensures Count(shards, g) < Count(shards, h) || (Count(shards, g) == Count(shards, h) && g <= h)
    {
      assert h in sorted;
    }
  }

  class ShardConfig {
    const shards: array<Gid>
    var groups: map<Gid, seq<string>>

    constructor (shards: array<Gid>, groups: map<Gid, seq<string>>)
      ensures this.shards == shards && this.groups == groups
    {
      this.shards, this.groups := shards, groups;
    }

    /** The shards are few enough for the sentinel 257 to be above every count. */
    predicate Valid()
      reads this
    {
      shards.Length < 257
    }

    method Counts() returns (counts: map<Gid, nat>)
      ensures forall g :: (if g in counts then counts[g] else 0) == Count(shards[..], g)
    {
      counts := map[];
      for i := 0 to shards.Length
        invariant forall g :: (if g in counts then counts[g] else 0) == CountTo(shards[..], i, g)
      {
        var g := shards[i];
        counts := counts[g := (if g in counts then counts[g] else 0) + 1];
      }
    }

    /** The most and the least loaded group with their loads; -1 stands for no group. */
    method Analyze() returns (mg: int, mn: int, lg: int, ln: int)
      requires Valid()
      ensures groups == map[] ==> mg == -1 && mn == -1 && lg == -1 && ln == 257
      ensures groups != map[] ==> mg >= 0 && IsMost(shards[..], groups.Keys, mg) && mn == Count(shards[..], mg)
      ensures groups != map[] ==> lg >= 0 && IsLeast(shards[..], groups.Keys, lg) && ln == Count(shards[..], lg)
    {
      var counts := Counts();
      var sorted := SortedKeys(groups.Keys);
      if |sorted| == 0 {
        assert groups.Keys == {};
        return -1, -1, -1, 257;
      }
      ghost var sh := shards[..];
      mn, mg, ln, lg := -1, -1, 257, -1;
      for i := 0 to |sorted|
        invariant i == 0 ==> mn == -1 && ln == 257
        invariant i > 0 ==> Top(sh, sorted, i, mg, mn) && Bottom(sh, sorted, i, lg, ln)
      {
        var g := sorted[i];
        var n := if g in counts then counts[g] else 0;
        if n < ln {
          ln, lg := n, g;
        }
        if n > mn {
          mn, mg := n, g;
        }
      }
      TopIsMost(sh, sorted, groups.Keys, mg, mn);
      BottomIsLeast(sh, sorted, groups.Keys, lg, ln);
    }

    method Rebalance()
      requires Valid()
      modifies shards
      ensures shards[..] == Rebalanced(old(shards[..]), groups.Keys)
    {
      if |groups| < 1 {
        for s := 0 to shards.Length
          invariant forall t :: 0 <= t < s ==> shards[t] == 0
        {
          shards[s] := 0;
        }
        assert groups.Keys == {};
        return;
      }
      Assign();
      Spread();
    }

    /** Give every shard of no group to the least loaded one. */
    method Assign()
      requires Valid() && groups.Keys != {}
      modifies shards
      ensures shards[..] == Fill(old(shards[..]), groups.Keys, 0)
    {
      for s := 0 to shards.Length
        invariant Fill(shards[..], groups.Keys, s) == Fill(old(shards[..]), groups.Keys, 0)
      {
        if shards[s] !in groups {
          var mg, mn, lg, ln := Analyze();
          OneLeast(shards[..], groups.Keys, lg, Least(shards[..], groups.Keys));
          ghost var before := shards[..];
          shards[s] := lg;
          assert shards[..] == before[s := shards[s]];
        }
      }
    }

    /** Move shards from the most to the least loaded group until no two loads differ by two. */
    method Spread()
      requires Valid() && groups.Keys != {}
      modifies shards
      ensures shards[..] == Balance(old(shards[..]), groups.Keys)
    {
      while true
        invariant Balance(shards[..], groups.Keys) == Balance(old(shards[..]), groups.Keys)
        decreases Weight(shards[..], |shards[..]|)
      {
        var mg, mn, lg, ln := Analyze();
        ghost var before := shards[..];
        OneLeast(before, groups.Keys, lg, Least(before, groups.Keys));
        OneMost(before, groups.Keys, mg, Most(before, groups.Keys));
        if mn < ln + 2 {
          break;
        }
        MoveFirst(mg, lg);
        assert shards[..] == Shift(before, groups.Keys);
      }
    }

    method MoveFirst(mg: Gid, lg: Gid)
      requires Count(shards[..], mg) > 0
      modifies shards
      ensures old(exists j :: 0 <= j < |shards[..]| && shards[..][j] == mg)
      ensures shards[..] == old(shards[..])[FirstOf(old(shards[..]), mg, 0) := lg]
    {
      ghost var before := shards[..];
      CountPositive(before, |before|, mg);
      var s := 0;
      while shards[s] != mg
        invariant s < shards.Length && forall j :: 0 <= j < s ==> before[j] != mg
        invariant shards[..] == before
        decreases shards.Length - s
      {
        s := s + 1;
        assert exists j :: s <= j < |before| && before[j] == mg;
      }
      assert s == FirstOf(before, mg, 0);
      shards[s] := lg;
      assert shards[..] == before[s := lg];
    }
  }
}
