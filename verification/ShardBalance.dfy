/**
 Spreading shards over groups: what the balancing of a configuration computes, that it ends, that
 it ends balanced, and that it moves no shard twice.
 */
module ShardBalance {

  type Gid = nat

  /** How many of the first n shards are with group g. */
  function CountTo(shards: seq<Gid>, n: nat, g: Gid): (c: nat)
    requires n <= |shards|
    ensures c <= n
  {
    if n == 0 then 0 else CountTo(shards, n - 1, g) + (if shards[n - 1] == g then 1 else 0)
  }

  function Count(shards: seq<Gid>, g: Gid): nat {
    CountTo(shards, |shards|, g)
  }

  /** g has the fewest shards of all groups, and the smallest number among those. */
  predicate IsLeast(shards: seq<Gid>, groups: set<Gid>, g: Gid) {
    g in groups && forall h :: h in groups ==>
      Count(shards, g) < Count(shards, h) || (Count(shards, g) == Count(shards, h) && g <= h)
  }

  /** g has the most shards of all groups, and the smallest number among those. */
  predicate IsMost(shards: seq<Gid>, groups: set<Gid>, g: Gid) {
    g in groups && forall h :: h in groups ==>
      Count(shards, g) > Count(shards, h) || (Count(shards, g) == Count(shards, h) && g <= h)
  }

  lemma OneLeast(shards: seq<Gid>, groups: set<Gid>, g: Gid, h: Gid)
    requires IsLeast(shards, groups, g) && IsLeast(shards, groups, h)
    ensures g == h
  {
  }

  lemma OneMost(shards: seq<Gid>, groups: set<Gid>, g: Gid, h: Gid)
    requires IsMost(shards, groups, g) && IsMost(shards, groups, h)
    ensures g == h
  {
  }

  lemma {:induction false} LeastExists(shards: seq<Gid>, groups: set<Gid>) returns (g: Gid)
    requires groups != {}
    ensures IsLeast(shards, groups, g)
    decreases |groups|
  {
    var x :| x in groups;
    g := x;
    if groups != {x} {
      var y := LeastExists(shards, groups - {x});
      assert groups == (groups - {x}) + {x};
      if Count(shards, y) < Count(shards, x) || (Count(shards, y) == Count(shards, x) && y <= x) {
        g := y;
      }
    }
  }

  lemma {:induction false} MostExists(shards: seq<Gid>, groups: set<Gid>) returns (g: Gid)
    requires groups != {}
    ensures IsMost(shards, groups, g)
    decreases |groups|
  {
    var x :| x in groups;
    g := x;
    if groups != {x} {
      var y := MostExists(shards, groups - {x});
      assert groups == (groups - {x}) + {x};
      if Count(shards, y) > Count(shards, x) || (Count(shards, y) == Count(shards, x) && y <= x) {
        g := y;
      }
    }
  }

  ghost function Least(shards: seq<Gid>, groups: set<Gid>): (g: Gid)
    requires groups != {}
    ensures IsLeast(shards, groups, g)
  {
    assert exists g :: IsLeast(shards, groups, g) by {
      var g := LeastExists(shards, groups);
    }
    var g :| IsLeast(shards, groups, g);
    g
  }

  ghost function Most(shards: seq<Gid>, groups: set<Gid>): (g: Gid)
    requires groups != {}
    ensures IsMost(shards, groups, g)
  {
    assert exists g :: IsMost(shards, groups, g) by {
      var g := MostExists(shards, groups);
    }
    var g :| IsMost(shards, groups, g);
    g
  }

  // ----- Counting after a move -------------------------------------------------------------

  lemma {:induction false} CountMoved(shards: seq<Gid>, n: nat, s: nat, to_: Gid, g: Gid)
    requires n <= |shards| && s < |shards|
    ensures CountTo(shards[s := to_], n, g) ==
            CountTo(shards, n, g) - (if s < n && shards[s] == g then 1 else 0) + (if s < n && to_ == g then 1 else 0)
    decreases n
  {
    if n > 0 {
      CountMoved(shards, n - 1, s, to_, g);
    }
  }

  lemma {:induction false} CountPositive(shards: seq<Gid>, n: nat, g: Gid)
    requires n <= |shards|
    ensures CountTo(shards, n, g) > 0 <==> exists i :: 0 <= i < n && shards[i] == g
    decreases n
  {
    if n > 0 {
      CountPositive(shards, n - 1, g);
    }
  }

  /** The first shard with group g at or after i. */
  function FirstOf(shards: seq<Gid>, g: Gid, i: nat): (s: nat)
    requires i <= |shards| && exists j :: i <= j < |shards| && shards[j] == g
    ensures i <= s < |shards| && shards[s] == g && forall j :: i <= j < s ==> shards[j] != g
    decreases |shards| - i
  {
    if shards[i] == g then i else FirstOf(shards, g, i + 1)
  }

  // ----- The potential ---------------------------------------------------------------------

  /** The counts of the groups of the first n shards, added up: over all shards, the sum of the squared counts. */
  function Weight(shards: seq<Gid>, n: nat): nat
    requires n <= |shards|
  {
    if n == 0 then 0 else Weight(shards, n - 1) + Count(shards, shards[n - 1])
  }

  lemma {:induction false} WeightMoved(shards: seq<Gid>, n: nat, s: nat, to_: Gid)
    requires n <= |shards| && s < |shards| && shards[s] != to_
    ensures var from := shards[s];
            Weight(shards[s := to_], n) ==
            Weight(shards, n) - CountTo(shards, n, from) + CountTo(shards, n, to_) +
            (if s < n then Count(shards, to_) + 2 - Count(shards, from) else 0)
    decreases n
  {
    if n > 0 {
      WeightMoved(shards, n - 1, s, to_);
      var g := shards[s := to_][n - 1];
      CountMoved(shards, |shards|, s, to_, g);
    }
  }

  /** Moving a shard from a group to one with at least two fewer makes the sum of squares smaller. */
  lemma MoveLightens(shards: seq<Gid>, s: nat, to_: Gid)
    requires s < |shards| && Count(shards, shards[s]) >= Count(shards, to_) + 2
    ensures Weight(shards[s := to_], |shards|) < Weight(shards, |shards|)
  {
    WeightMoved(shards, |shards|, s, to_);
  }

  // ----- What balancing computes -----------------------------------------------------------

  /** From shard s on, give every shard that is with no group to the least loaded one. */
  ghost function Fill(shards: seq<Gid>, groups: set<Gid>, s: nat): (r: seq<Gid>)
    requires groups != {} && s <= |shards|
    ensures |r| == |shards|
    decreases |shards| - s
  {
    if s == |shards| then shards
    else if shards[s] in groups then Fill(shards, groups, s + 1)
    else Fill(shards[s := Least(shards, groups)], groups, s + 1)
  }

  ghost predicate Level(shards: seq<Gid>, groups: set<Gid>)
    requires groups != {}
  {
    Count(shards, Most(shards, groups)) < Count(shards, Least(shards, groups)) + 2
  }

  /** Move the first shard of the most loaded group to the least loaded one. */
  ghost function Shift(shards: seq<Gid>, groups: set<Gid>): (r: seq<Gid>)
    requires groups != {} && !Level(shards, groups)
    ensures |r| == |shards| && Weight(r, |r|) < Weight(shards, |shards|)
  {
    var mg, lg := Most(shards, groups), Least(shards, groups);
    CountPositive(shards, |shards|, mg);
    var s := FirstOf(shards, mg, 0);
    MoveLightens(shards, s, lg);
    shards[s := lg]
  }

  ghost function Balance(shards: seq<Gid>, groups: set<Gid>): (r: seq<Gid>)
    requires groups != {}
    ensures |r| == |shards|
    decreases Weight(shards, |shards|)
  {
    if Level(shards, groups) then shards else Balance(Shift(shards, groups), groups)
  }

  /** The whole of it; a configuration without groups leaves every shard with group 0. */
  ghost function Rebalanced(shards: seq<Gid>, groups: set<Gid>): (r: seq<Gid>)
    ensures |r| == |shards|
  {
    if groups == {} then seq(|shards|, _ => 0) else Balance(Fill(shards, groups, 0), groups)
  }

  // ----- What it guarantees ----------------------------------------------------------------

  predicate Assigned(shards: seq<Gid>, groups: set<Gid>, n: nat)
    requires n <= |shards|
  {
    forall s :: 0 <= s < n ==> shards[s] in groups
  }

  lemma {:induction false} FillAssigns(shards: seq<Gid>, groups: set<Gid>, s: nat)
    requires groups != {} && s <= |shards| && Assigned(shards, groups, s)
    ensures Assigned(Fill(shards, groups, s), groups, |shards|)
    ensures forall t :: 0 <= t < |shards| && shards[t] in groups ==> Fill(shards, groups, s)[t] == shards[t]
    decreases |shards| - s
  {
    if s < |shards| {
      if shards[s] in groups {
        FillAssigns(shards, groups, s + 1);
      } else {
        FillAssigns(shards[s := Least(shards, groups)], groups, s + 1);
      }
    }
  }

  lemma {:induction false} BalanceAssigns(shards: seq<Gid>, groups: set<Gid>)
    requires groups != {} && Assigned(shards, groups, |shards|)
    ensures Assigned(Balance(shards, groups), groups, |shards|)
    decreases Weight(shards, |shards|)
  {
    if !Level(shards, groups) {
      BalanceAssigns(Shift(shards, groups), groups);
    }
  }

  /** No group has two shards more than another. */
  predicate Even(shards: seq<Gid>, groups: set<Gid>) {
    forall g, h :: g in groups && h in groups ==> Count(shards, g) <= Count(shards, h) + 1
  }

  lemma {:induction false} BalanceEvens(shards: seq<Gid>, groups: set<Gid>)
    requires groups != {}
    ensures Even(Balance(shards, groups), groups)
    decreases Weight(shards, |shards|)
  {
    if Level(shards, groups) {
      forall g, h | g in groups && h in groups
        ensures Count(shards, g) <= Count(shards, h) + 1
      {
      }
    } else {
      BalanceEvens(Shift(shards, groups), groups);
    }
  }

  /** Every shard ends with a member, and the loads differ by at most one; without members it ends with group 0. */
  lemma RebalancedIsFair(shards: seq<Gid>, groups: set<Gid>)
    ensures var r := Rebalanced(shards, groups);
            if groups == {} then Assigned(r, {0}, |r|) else Assigned(r, groups, |r|) && Even(r, groups)
  {
    if groups != {} {
      FillAssigns(shards, groups, 0);
      BalanceAssigns(Fill(shards, groups, 0), groups);
      BalanceEvens(Fill(shards, groups, 0), groups);
    }
  }

  /** A configuration that is in order already is left alone. */
  lemma RebalancedIsStable(shards: seq<Gid>, groups: set<Gid>)
    requires groups != {} && Assigned(shards, groups, |shards|) && Even(shards, groups)
    ensures Rebalanced(shards, groups) == shards
  {
    FillAssigns(shards, groups, 0);
    assert Fill(shards, groups, 0) == shards;
    assert Level(shards, groups);
  }

  // ----- No shard moves twice --------------------------------------------------------------

  /** How many of the first n shards differ. */
  function Differ(a: seq<Gid>, b: seq<Gid>, n: nat): nat
    requires n <= |a| && n <= |b|
  {
    if n == 0 then 0 else Differ(a, b, n - 1) + (if a[n - 1] != b[n - 1] then 1 else 0)
  }

  ghost function Moves(shards: seq<Gid>, groups: set<Gid>): nat
    requires groups != {}
    decreases Weight(shards, |shards|)
  {
    if Level(shards, groups) then 0 else 1 + Moves(Shift(shards, groups), groups)
  }

  /**
   The state of balancing: some groups have given shards and stay near the top, others have received
   and stay near the bottom, and every shard that is no longer at its origin went from the one kind
   to the other.
   */
  predicate Track(origin: seq<Gid>, shards: seq<Gid>, groups: set<Gid>, givers: set<Gid>, takers: set<Gid>, moved: nat) {
    && givers <= groups && takers <= groups && givers !! takers
    && LoadsFit(shards, groups, givers, takers) && CameFrom(origin, shards, givers, takers)
    && moved == Differ(origin, shards, |shards|)
  }

  /** Givers are among the most loaded still, takers among the least, and no taker is above a giver. */
  predicate LoadsFit(shards: seq<Gid>, groups: set<Gid>, givers: set<Gid>, takers: set<Gid>) {
    && (forall g, h :: g in givers && h in groups ==> Count(shards, h) <= Count(shards, g) + 1)
    && (forall g, h :: g in takers && h in groups ==> Count(shards, g) <= Count(shards, h) + 1)
    && (forall g, h :: g in givers && h in takers ==> Count(shards, h) <= Count(shards, g))
  }

  /** A shard that is elsewhere has gone from a giver to a taker, and all lower ones of that giver have gone too. */
  predicate CameFrom(origin: seq<Gid>, shards: seq<Gid>, givers: set<Gid>, takers: set<Gid>) {
    && |origin| == |shards|
    && (forall s :: 0 <= s < |shards| ==> shards[s] == origin[s] || (origin[s] in givers && shards[s] in takers))
    && (forall s, t :: 0 <= s < t < |shards| && origin[s] == origin[t] && shards[t] != origin[t] ==> shards[s] != origin[s])
  }

  lemma {:induction false} DifferMoved(a: seq<Gid>, b: seq<Gid>, n: nat, s: nat, to_: Gid)
    requires |a| == |b| && n <= |a| && s < |a| && a[s] == b[s] && b[s] != to_
    ensures Differ(a, b[s := to_], n) == Differ(a, b, n) + (if s < n then 1 else 0)
    decreases n
  {
    if n > 0 {
      DifferMoved(a, b, n - 1, s, to_);
    }
  }

  /** A group that has received never becomes the giver, nor the other way round. */
  lemma ShiftTracks(origin: seq<Gid>, shards: seq<Gid>, groups: set<Gid>, givers: set<Gid>, takers: set<Gid>, moved: nat)
    requires groups != {} && Track(origin, shards, groups, givers, takers, moved) && !Level(shards, groups)
    ensures Track(origin, Shift(shards, groups), groups, givers + {Most(shards, groups)}, takers + {Least(shards, groups)}, moved + 1)
  {
    hide LoadsFit, CameFrom, Differ;
    var mg, lg := Most(shards, groups), Least(shards, groups);
    CountPositive(shards, |shards|, mg);
    var s := FirstOf(shards, mg, 0);
    NotBefore(shards, groups, givers, takers);
    ShiftLoads(shards, groups, givers, takers, s);
    NotMovedBefore(origin, shards, givers, takers, s);
    ShiftCameFrom(origin, shards, givers, takers, s, mg, lg);
    DifferMoved(origin, shards, |shards|, s, lg);
  }

  lemma ShiftLoads(shards: seq<Gid>, groups: set<Gid>, givers: set<Gid>, takers: set<Gid>, s: nat)
    requires groups != {} && givers <= groups && takers <= groups && LoadsFit(shards, groups, givers, takers) && !Level(shards, groups)
    requires s < |shards| && shards[s] == Most(shards, groups)
    ensures LoadsFit(shards[s := Least(shards, groups)], groups, givers + {Most(shards, groups)}, takers + {Least(shards, groups)})
  {
    hide Count, Level;
    var mg, lg := Most(shards, groups), Least(shards, groups);
    var r, givers', takers' := shards[s := lg], givers + {mg}, takers + {lg};
    forall g, h | g in groups && h in groups
      ensures g in givers' ==> Count(r, h) <= Count(r, g) + 1
      ensures g in takers' ==> Count(r, g) <= Count(r, h) + 1
      ensures g in givers' && h in takers' ==> Count(r, h) <= Count(r, g)
    {
      PairShifted(shards, groups, givers, takers, s, g, h);
    }
  }

  lemma PairShifted(shards: seq<Gid>, groups: set<Gid>, givers: set<Gid>, takers: set<Gid>, s: nat, g: Gid, h: Gid)
    requires groups != {} && givers <= groups && takers <= groups && LoadsFit(shards, groups, givers, takers) && !Level(shards, groups)
    requires s < |shards| && shards[s] == Most(shards, groups) && g in groups && h in groups
    ensures var mg, lg := Most(shards, groups), Least(shards, groups);
            var r, givers', takers' := shards[s := lg], givers + {mg}, takers + {lg};
            && (g in givers' ==> Count(r, h) <= Count(r, g) + 1)
            && (g in takers' ==> Count(r, g) <= Count(r, h) + 1)
            && (g in givers' && h in takers' ==> Count(r, h) <= Count(r, g))
  {
    hide Count;
    CountShifted(shards, s, Least(shards, groups), g);
    CountShifted(shards, s, Least(shards, groups), h);
  }

  lemma CountShifted(shards: seq<Gid>, s: nat, to_: Gid, g: Gid)
    requires s < |shards|
    ensures Count(shards[s := to_], g) == Count(shards, g) - (if shards[s] == g then 1 else 0) + (if to_ == g then 1 else 0)
  {
    CountMoved(shards, |shards|, s, to_, g);
  }

  lemma NotMovedBefore(origin: seq<Gid>, shards: seq<Gid>, givers: set<Gid>, takers: set<Gid>, s: nat)
    requires CameFrom(origin, shards, givers, takers) && s < |shards| && shards[s] !in takers
    ensures |origin| == |shards| && shards[s] == origin[s]
  {
  }

  lemma ShiftCameFrom(origin: seq<Gid>, shards: seq<Gid>, givers: set<Gid>, takers: set<Gid>, s: nat, mg: Gid, lg: Gid)
    requires CameFrom(origin, shards, givers, takers) && s < |shards| && shards[s] == origin[s] == mg
    requires forall j :: 0 <= j < s ==> shards[j] != mg
    ensures CameFrom(origin, shards[s := lg], givers + {mg}, takers + {lg})
  {
  }

  /** The group that gives has not received, and the other way round. */
  lemma NotBefore(shards: seq<Gid>, groups: set<Gid>, givers: set<Gid>, takers: set<Gid>)
    requires groups != {} && givers <= groups && takers <= groups && LoadsFit(shards, groups, givers, takers) && !Level(shards, groups)
    ensures Most(shards, groups) !in takers && Least(shards, groups) !in givers
  {
    hide Count;
  }

  lemma {:induction false} BalanceTracks(origin: seq<Gid>, shards: seq<Gid>, groups: set<Gid>, givers: set<Gid>, takers: set<Gid>,
                                         moved: nat)
    returns (givers': set<Gid>, takers': set<Gid>)
    requires groups != {} && Track(origin, shards, groups, givers, takers, moved)
    ensures takers <= takers'
    ensures Track(origin, Balance(shards, groups), groups, givers', takers', moved + Moves(shards, groups))
    decreases Weight(shards, |shards|)
  {
    if Level(shards, groups) {
      return givers, takers;
    }
    ShiftTracks(origin, shards, groups, givers, takers, moved);
    givers', takers' := BalanceTracks(origin, Shift(shards, groups), groups, givers + {Most(shards, groups)},
                                      takers + {Least(shards, groups)}, moved + 1);
  }

  lemma {:induction false} NoDifference(a: seq<Gid>, n: nat)
    requires n <= |a|
    ensures Differ(a, a, n) == 0
    decreases n
  {
    if n > 0 {
      NoDifference(a, n - 1);
    }
  }

  /**
   The balancing loop takes as many steps as there are shards that end elsewhere than they started, so
   no shard moves twice; the groups that lose shards and those that gain them are different ones, and a group
   loses its lowest shards.
   */
  lemma EachShardMovesOnce(shards: seq<Gid>, groups: set<Gid>) returns (givers: set<Gid>, takers: set<Gid>)
    requires groups != {}
    ensures Track(shards, Balance(shards, groups), groups, givers, takers, Moves(shards, groups))
    ensures givers !! takers
    ensures var r := Balance(shards, groups);
            && Moves(shards, groups) == Differ(shards, r, |shards|)
            && (forall s :: 0 <= s < |shards| ==> r[s] == shards[s] || (shards[s] in givers && r[s] in takers))
            && (forall s, t :: 0 <= s < t < |shards| && shards[s] == shards[t] && r[t] != shards[t] ==> r[s] != shards[s])
  {
    NoDifference(shards, |shards|);
    assert Track(shards, shards, groups, {}, {}, 0);
    givers, takers := BalanceTracks(shards, shards, groups, {}, {}, 0);
  }

  // ----- Counting over sets of groups --------------------------------------------------------

  /** How many of the first n shards are with the groups of a set. */
  function CountIn(shards: seq<Gid>, n: nat, groups: set<Gid>): nat
    requires n <= |shards|
  {
    if n == 0 then 0 else CountIn(shards, n - 1, groups) + (if shards[n - 1] in groups then 1 else 0)
  }

  lemma {:induction false} CountInWithout(shards: seq<Gid>, n: nat, groups: set<Gid>, g: Gid)
    requires n <= |shards| && g in groups
    ensures CountIn(shards, n, groups) == CountIn(shards, n, groups - {g}) + CountTo(shards, n, g)
    decreases n
  {
    if n > 0 {
      CountInWithout(shards, n - 1, groups, g);
    }
  }

  lemma {:induction false} CountInNone(shards: seq<Gid>, n: nat)
    requires n <= |shards|
    ensures CountIn(shards, n, {}) == 0
    decreases n
  {
    if n > 0 {
      CountInNone(shards, n - 1);
    }
  }

  lemma {:induction false} CountInAll(shards: seq<Gid>, n: nat, groups: set<Gid>)
    requires n <= |shards| && Assigned(shards, groups, n)
    ensures CountIn(shards, n, groups) == n
    decreases n
  {
    if n > 0 {
      CountInAll(shards, n - 1, groups);
    }
  }

  /** Groups with loads between two bounds hold a total between as many times those. */
  lemma {:induction false} TotalBetween(shards: seq<Gid>, groups: set<Gid>, lo: nat, hi: nat)
    requires forall g :: g in groups ==> lo <= Count(shards, g) <= hi
    ensures |groups| * lo <= CountIn(shards, |shards|, groups) <= |groups| * hi
    decreases |groups|
  {
    if groups == {} {
      CountInNone(shards, |shards|);
    } else {
      var g :| g in groups;
      TotalBetween(shards, groups - {g}, lo, hi);
      CountInWithout(shards, |shards|, groups, g);
      Times(|groups|, lo);
      Times(|groups|, hi);
    }
  }

  lemma Times(n: nat, x: nat)
    requires n >= 1
    ensures n * x == (n - 1) * x + x
  {
  }

  /** If every load of one spread is at least lo, so is every load of an even spread of as many shards. */
  lemma EvenSpreadAtLeast(a: seq<Gid>, b: seq<Gid>, groups: set<Gid>, lo: nat, g: Gid)
    requires |a| == |b| && Assigned(a, groups, |a|) && Assigned(b, groups, |b|) && Even(b, groups) && g in groups
    requires forall h :: h in groups ==> lo <= Count(a, h) <= |a|
    ensures Count(b, g) >= lo
  {
    hide Count;
    CountInAll(a, |a|, groups);
    CountInAll(b, |b|, groups);
    CountInWithout(b, |b|, groups, g);
    TotalBetween(a, groups, lo, |a|);
    Times(|groups|, lo);
    if Count(b, g) < lo {
      TotalBetween(b, groups - {g}, 0, lo);
      CountMeans(b, g);
    }
  }

  /** And likewise for an upper bound. */
  lemma EvenSpreadAtMost(a: seq<Gid>, b: seq<Gid>, groups: set<Gid>, hi: nat, g: Gid)
    requires |a| == |b| && Assigned(a, groups, |a|) && Assigned(b, groups, |b|) && Even(b, groups) && g in groups
    requires forall h :: h in groups ==> Count(a, h) <= hi
    ensures Count(b, g) <= hi
  {
    hide Count;
    CountInAll(a, |a|, groups);
    CountInAll(b, |b|, groups);
    CountInWithout(b, |b|, groups, g);
    TotalBetween(a, groups, 0, hi);
    Times(|groups|, hi);
    if Count(b, g) > hi {
      AllBelow(b, groups - {g});
      TotalBetween(b, groups - {g}, hi, hi + |b|);
      CountMeans(b, g);
    }
  }

  lemma CountMeans(shards: seq<Gid>, g: Gid)
    ensures Count(shards, g) == CountTo(shards, |shards|, g)
  {
  }

  lemma AllBelow(shards: seq<Gid>, groups: set<Gid>)
    ensures forall h :: h in groups ==> Count(shards, h) <= |shards|
  {
  }

  // ----- The whole of it moves no more than it must ------------------------------------------

  /** How many of the first n shards are with a member and end elsewhere. */
  function Displaced(shards: seq<Gid>, r: seq<Gid>, groups: set<Gid>, n: nat): nat
    requires n <= |shards| && n <= |r|
  {
    if n == 0 then 0
    else Displaced(shards, r, groups, n - 1) + (if shards[n - 1] in groups && r[n - 1] != shards[n - 1] then 1 else 0)
  }

  /** The groups that hold one of the first n shards which were with no member in the beginning. */
  function Filled(shards: seq<Gid>, r: seq<Gid>, groups: set<Gid>, n: nat): set<Gid>
    requires n <= |shards| && n <= |r|
  {
    set s | 0 <= s < n && shards[s] !in groups :: r[s]
  }

  /** Each of these groups is among the least loaded. */
  predicate NearBottom(shards: seq<Gid>, groups: set<Gid>, some: set<Gid>) {
    forall g, h :: g in some && h in groups ==> Count(shards, g) <= Count(shards, h) + 1
  }

  /** A shard of no member is given to the least loaded group, which so stays near the bottom. */
  lemma GivenToLeast(origin: seq<Gid>, shards: seq<Gid>, groups: set<Gid>, s: nat)
    requires groups != {} && |origin| == |shards| && s < |shards| && shards[s] == origin[s] && shards[s] !in groups
    requires Filled(origin, shards, groups, s) <= groups && NearBottom(shards, groups, Filled(origin, shards, groups, s))
    ensures var r, n := shards[s := Least(shards, groups)], s + 1;
            Filled(origin, r, groups, n) <= groups && NearBottom(r, groups, Filled(origin, r, groups, n))
  {
    hide Count;
    var lg, n := Least(shards, groups), s + 1;
    var r := shards[s := lg];
    assert Filled(origin, r, groups, n) == Filled(origin, shards, groups, s) + {lg};
    forall g, h | g in Filled(origin, r, groups, n) && h in groups
      ensures Count(r, g) <= Count(r, h) + 1
    {
      CountShifted(shards, s, lg, g);
      CountShifted(shards, s, lg, h);
    }
  }

  lemma {:induction false} FillStaysLow(origin: seq<Gid>, shards: seq<Gid>, groups: set<Gid>, s: nat)
    requires groups != {} && |origin| == |shards| && s <= |shards| && forall t :: s <= t < |shards| ==> shards[t] == origin[t]
    requires Filled(origin, shards, groups, s) <= groups && NearBottom(shards, groups, Filled(origin, shards, groups, s))
    ensures var r := Fill(shards, groups, s);
            Filled(origin, r, groups, |shards|) <= groups && NearBottom(r, groups, Filled(origin, r, groups, |shards|))
    decreases |shards| - s
  {
    hide NearBottom;
    if s < |shards| {
      var n := s + 1;
      if shards[s] in groups {
        assert Filled(origin, shards, groups, n) == Filled(origin, shards, groups, s);
        FillStaysLow(origin, shards, groups, n);
      } else {
        GivenToLeast(origin, shards, groups, s);
        FillStaysLow(origin, shards[s := Least(shards, groups)], groups, n);
      }
    }
  }

  /** Filling, then balancing: a group that was filled never gives, and no shard of no member moves twice. */
  lemma RebalanceTracks(shards: seq<Gid>, groups: set<Gid>) returns (givers: set<Gid>, takers: set<Gid>)
    requires groups != {}
    ensures var f := Fill(shards, groups, 0);
            && Track(f, Balance(f, groups), groups, givers, takers, Moves(f, groups))
            && Filled(shards, f, groups, |shards|) <= takers
  {
    hide NearBottom, Fill;
    var f := Fill(shards, groups, 0);
    assert Filled(shards, shards, groups, 0) == {};
    NothingIsLow(shards, groups);
    FillStaysLow(shards, shards, groups, 0);
    var filled := Filled(shards, f, groups, |shards|);
    NoDifference(f, |f|);
    FilledTracks(f, groups, filled);
    givers, takers := BalanceTracks(f, f, groups, {}, filled, 0);
  }

  lemma NothingIsLow(shards: seq<Gid>, groups: set<Gid>)
    ensures NearBottom(shards, groups, {})
  {
  }

  lemma FilledTracks(f: seq<Gid>, groups: set<Gid>, filled: set<Gid>)
    requires filled <= groups && NearBottom(f, groups, filled) && Differ(f, f, |f|) == 0
    ensures Track(f, f, groups, {}, filled, 0)
  {
  }

  /** What leaves a set of groups is displaced. */
  lemma {:induction false} LeavingIsDisplaced(shards: seq<Gid>, other: seq<Gid>, groups: set<Gid>, some: set<Gid>, n: nat)
    requires n <= |shards| && n <= |other| && some <= groups
    ensures CountIn(shards, n, some) - CountIn(other, n, some) <= Displaced(shards, other, groups, n)
    decreases n
  {
    if n > 0 {
      LeavingIsDisplaced(shards, other, groups, some, n - 1);
    }
  }

  /** If everything that is displaced leaves the set, and the others come to nowhere in it, the numbers are equal. */
  lemma {:induction false} DisplacedLeave(shards: seq<Gid>, r: seq<Gid>, groups: set<Gid>, some: set<Gid>, n: nat)
    requires n <= |shards| && n <= |r| && some <= groups
    requires forall s :: 0 <= s < n && shards[s] in groups ==> r[s] == shards[s] || (shards[s] in some && r[s] !in some)
    requires forall s :: 0 <= s < n && shards[s] !in groups ==> r[s] !in some
    ensures CountIn(shards, n, some) - CountIn(r, n, some) == Displaced(shards, r, groups, n)
    decreases n
  {
    if n > 0 {
      DisplacedLeave(shards, r, groups, some, n - 1);
    }
  }

  /** Of a spread with loads lo and lo + 1, a set that has all the heavier groups holds at least as much as in any such spread. */
  lemma HeavyHoldMost(r: seq<Gid>, other: seq<Gid>, groups: set<Gid>, some: set<Gid>, lo: nat)
    requires |r| == |other| && Assigned(r, groups, |r|) && Assigned(other, groups, |other|) && some <= groups
    requires forall g :: g in groups ==> lo <= Count(other, g) <= lo + 1
    requires forall g :: g in groups - some ==> Count(r, g) == lo
    ensures CountIn(other, |r|, some) <= CountIn(r, |r|, some)
  {
    hide Count;
    var rest, n := groups - some, |r|;
    CountInAll(r, n, groups);
    CountInAll(other, n, groups);
    CountInSplit(r, n, groups, some);
    CountInSplit(other, n, groups, some);
    TotalBetween(r, rest, lo, lo);
    TotalBetween(other, rest, lo, lo + 1);
  }

  lemma {:induction false} CountInSplit(shards: seq<Gid>, n: nat, groups: set<Gid>, some: set<Gid>)
    requires n <= |shards| && some <= groups
    ensures CountIn(shards, n, groups) == CountIn(shards, n, some) + CountIn(shards, n, groups - some)
    decreases n
  {
    if n > 0 {
      CountInSplit(shards, n - 1, groups, some);
    }
  }

  /** A set of groups whose shards, and only those, are displaced, and which could keep no more of them. */
  lemma CannotKeepMore(shards: seq<Gid>, r: seq<Gid>, other: seq<Gid>, groups: set<Gid>, some: set<Gid>)
    requires |r| == |shards| == |other| && some <= groups && CountIn(other, |r|, some) <= CountIn(r, |r|, some)
    requires forall s :: 0 <= s < |r| && shards[s] in groups ==> r[s] == shards[s] || (shards[s] in some && r[s] !in some)
    requires forall s :: 0 <= s < |r| && shards[s] !in groups ==> r[s] !in some
    ensures Displaced(shards, r, groups, |shards|) <= Displaced(shards, other, groups, |shards|)
  {
    DisplacedLeave(shards, r, groups, some, |shards|);
    LeavingIsDisplaced(shards, other, groups, some, |shards|);
  }

  /** Where every shard ends, seen from where it was before filling. */
  lemma WhereShardsEnd(shards: seq<Gid>, groups: set<Gid>, r: seq<Gid>, givers: set<Gid>, takers: set<Gid>)
    requires groups != {} && CameFrom(Fill(shards, groups, 0), r, givers, takers) && givers !! takers
    requires Filled(shards, Fill(shards, groups, 0), groups, |shards|) <= takers
    ensures |r| == |shards|
    ensures forall s :: 0 <= s < |r| && shards[s] in groups ==> r[s] == shards[s] || (shards[s] in givers && r[s] in takers)
    ensures forall s :: 0 <= s < |r| && shards[s] !in groups ==> r[s] in takers
  {
    hide Fill;
    var f := Fill(shards, groups, 0);
    FillAssigns(shards, groups, 0);
    forall s | 0 <= s < |r| && shards[s] !in groups
      ensures r[s] in takers
    {
      assert f[s] in Filled(shards, f, groups, |shards|);
    }
  }

  /**
   Rebalancing takes as few shards away from members as possible: no even assignment of all shards to the
   groups takes away fewer.
   */
  lemma RebalancedIsMinimal(shards: seq<Gid>, groups: set<Gid>, other: seq<Gid>)
    requires groups != {} && |other| == |shards| && Assigned(other, groups, |other|) && Even(other, groups)
    ensures Displaced(shards, Rebalanced(shards, groups), groups, |shards|) <= Displaced(shards, other, groups, |shards|)
  {
    hide Count, Even, Fill, Balance, Differ, Displaced, CountIn, Filled, CameFrom;
    var f, r := Fill(shards, groups, 0), Rebalanced(shards, groups);
    RebalancedIsFair(shards, groups);
    var givers, takers := RebalanceTracks(shards, groups);
    WhereShardsEnd(shards, groups, r, givers, takers);
    var lo := TwoLoads(r, other, groups);
    if forall g :: g in givers ==> Count(r, g) == lo + 1 {
      TotalBetween(r, givers, lo + 1, lo + 1);
      TotalBetween(other, givers, 0, lo + 1);
      CannotKeepMore(shards, r, other, groups, givers);
    } else {
      var g :| g in givers && Count(r, g) != lo + 1;
      var some := groups - takers;
      forall t | t in groups - some
        ensures Count(r, t) == lo
      {
        assert Count(r, t) <= Count(r, g);
      }
      HeavyHoldMost(r, other, groups, some, lo);
      CannotKeepMore(shards, r, other, groups, some);
    }
  }

  /** Two even spreads of as many shards have the same two loads. */
  lemma TwoLoads(r: seq<Gid>, other: seq<Gid>, groups: set<Gid>) returns (lo: nat)
    requires groups != {} && |other| == |r| && Assigned(r, groups, |r|) && Assigned(other, groups, |other|)
    requires Even(r, groups) && Even(other, groups)
    ensures forall g :: g in groups ==> lo <= Count(r, g) <= lo + 1 && lo <= Count(other, g) <= lo + 1
  {
    hide Count;
    var least := Least(r, groups);
    lo := Count(r, least);
    assert forall h :: h in groups ==> lo <= Count(r, h) <= lo + 1;
    AllBelow(r, groups);
    forall g | g in groups
      ensures lo <= Count(other, g) <= lo + 1
    {
      EvenSpreadAtLeast(r, other, groups, lo, g);
      EvenSpreadAtMost(r, other, groups, lo + 1, g);
    }
  }

  lemma {:induction false} AllAreMembers(shards: seq<Gid>, r: seq<Gid>, groups: set<Gid>, n: nat)
    requires n <= |shards| && n <= |r| && Assigned(shards, groups, n)
    ensures Displaced(shards, r, groups, n) == Differ(shards, r, n)
    decreases n
  {
    if n > 0 {
      AllAreMembers(shards, r, groups, n - 1);
    }
  }

  /**
   Where every shard is with a member, balancing moves no shard more than it must: any even assignment to
   the same groups differs in at least as many places.
   */
  lemma BalanceIsMinimal(shards: seq<Gid>, groups: set<Gid>, other: seq<Gid>)
    requires groups != {} && Assigned(shards, groups, |shards|)
    requires |other| == |shards| && Assigned(other, groups, |other|) && Even(other, groups)
    ensures Differ(shards, Balance(shards, groups), |shards|) <= Differ(shards, other, |shards|)
  {
    hide Fill, Balance, Even;
    FillAssigns(shards, groups, 0);
    assert Fill(shards, groups, 0) == shards;
    RebalancedIsMinimal(shards, groups, other);
    AllAreMembers(shards, Balance(shards, groups), groups, |shards|);
    AllAreMembers(shards, other, groups, |shards|);
  }
}
