/** Resizing a scenario to a number of clients: groups keep their relative sizes by the
    largest-remainder method, and no explicit client override is ever discarded. */
module Redistribution {
  import opened Basics

  /** One client group; `overrides` are the client indices that have explicit settings. */
  datatype Group = Group(count: nat, overrides: seq<nat>)

  function Sum(s: seq<nat>): nat {
    if s == [] then 0 else s[0] + Sum(s[1..])
  }

  function Counts(groups: seq<Group>): seq<nat> {
    seq(|groups|, i requires 0 <= i < |groups| => groups[i].count)
  }

  function Ones(n: nat): seq<nat> {
    seq(n, _ => 1)
  }

  /** Groups without any client count alike. */
  function Weights(groups: seq<Group>): seq<nat> {
    if Sum(Counts(groups)) == 0 then Ones(|groups|) else Counts(groups)
  }

  function Floors(weights: seq<nat>, target: nat, total: nat): seq<nat>
    requires total > 0
  {
    seq(|weights|, i requires 0 <= i < |weights| => target * weights[i] / total)
  }

  function Remainders(weights: seq<nat>, target: nat, total: nat): seq<nat>
    requires total > 0
  {
    seq(|weights|, i requires 0 <= i < |weights| => target * weights[i] % total)
  }

  // ---------- Order ----------

  /** Larger remainders first; equal ones by position. */
  predicate Precedes(rems: seq<nat>, i: nat, j: nat)
    requires i < |rems| && j < |rems|
  {
    rems[i] > rems[j] || (rems[i] == rems[j] && i < j)
  }

  function Insert(rems: seq<nat>, order: seq<nat>, i: nat): seq<nat>
    requires i < |rems| && forall k :: 0 <= k < |order| ==> order[k] < |rems|
  {
    if order == [] || Precedes(rems, i, order[0]) then [i] + order
    else [order[0]] + Insert(rems, order[1..], i)
  }

  /** The positions below `n` in order. */
  function Order(rems: seq<nat>, n: nat): (order: seq<nat>)
    requires n <= |rems|
    ensures IsOrder(rems, order, n)
  {
    if n == 0 then [] else
      InsertOrders(rems, Order(rems, n - 1), n - 1);
      InsertCovers(rems, Order(rems, n - 1), n - 1);
      Insert(rems, Order(rems, n - 1), n - 1)
  }

  ghost predicate Ordered(rems: seq<nat>, order: seq<nat>) {
    && (forall k :: 0 <= k < |order| ==> order[k] < |rems|)
    && (forall j, k :: 0 <= j < k < |order| ==> Precedes(rems, order[j], order[k]))
  }

  ghost predicate IsOrder(rems: seq<nat>, order: seq<nat>, n: nat) {
    Ordered(rems, order) && |order| == n && forall i: nat :: i in order <==> i < n
  }

  lemma {:induction false} InsertCovers(rems: seq<nat>, order: seq<nat>, i: nat)
    requires i < |rems| && forall k :: 0 <= k < |order| ==> order[k] < |rems|
    ensures |Insert(rems, order, i)| == |order| + 1
    ensures forall j: nat :: j in Insert(rems, order, i) <==> j in order || j == i
    decreases |order|
  {
    if order != [] && !Precedes(rems, i, order[0]) {
      InsertCovers(rems, order[1..], i);
      assert order == [order[0]] + order[1..];
    }
  }

  lemma {:induction false} InsertOrders(rems: seq<nat>, order: seq<nat>, i: nat)
    requires i < |rems| && Ordered(rems, order) && i !in order
    ensures Ordered(rems, Insert(rems, order, i))
    decreases |order|
  {
    if order != [] && !Precedes(rems, i, order[0]) {
      InsertOrders(rems, order[1..], i);
      InsertCovers(rems, order[1..], i);
      var rest := Insert(rems, order[1..], i);
      forall k | 0 <= k < |rest| ensures Precedes(rems, order[0], rest[k]) {
        assert rest[k] in rest;
      }
    }
  }

  // ---------- Shares ----------

  function Leftover(weights: seq<nat>, target: nat): int
    requires Sum(weights) > 0
  {
    target - Sum(Floors(weights, target, Sum(weights)))
  }

  /** The positions that receive one client more than their floor. */
  function Favoured(weights: seq<nat>, target: nat): seq<nat>
    requires Sum(weights) > 0
  {
    var rems := Remainders(weights, target, Sum(weights));
    var order := Order(rems, |rems|);
    order[..Clamp(Leftover(weights, target), 0, |order|)]
  }

  /** One more client at each listed position in turn. */
  function Raised(counts: seq<nat>, positions: seq<nat>): (raised: seq<nat>)
    ensures |raised| == |counts|
    decreases |positions|
  {
    if positions == [] then counts
    else
      var before := Raised(counts, positions[..|positions| - 1]);
      var i := positions[|positions| - 1];
      if i < |before| then before[i := before[i] + 1] else before
  }

  function Shares(weights: seq<nat>, target: nat): (shares: seq<nat>)
    requires Sum(weights) > 0
    ensures |shares| == |weights|
  {
    Raised(Floors(weights, target, Sum(weights)), Favoured(weights, target))
  }

  lemma Split(a: nat, d: nat)
    requires d > 0
    ensures a == d * (a / d) + a % d && a % d < d
  {
  }

  /** Floors and remainders together are the exact quotas. */
  lemma {:induction false} QuotasExact(weights: seq<nat>, target: nat, total: nat)
    requires total > 0
    ensures total * Sum(Floors(weights, target, total)) + Sum(Remainders(weights, target, total)) == target * Sum(weights)
    decreases |weights|
  {
    if weights == [] {
    } else {
      var rest := weights[1..];
      QuotasExact(rest, target, total);
      var floors := Floors(weights, target, total);
      var rems := Remainders(weights, target, total);
      assert floors[1..] == Floors(rest, target, total);
      assert rems[1..] == Remainders(rest, target, total);
      Split(target * weights[0], total);
      Distribute(total, floors[0], Sum(floors[1..]));
      Distribute(target, weights[0], Sum(rest));
    }
  }

  lemma Distribute(factor: nat, a: nat, b: nat)
    ensures factor * (a + b) == factor * a + factor * b
  {
  }

  function Positive(rems: seq<nat>): set<nat> {
    set i: nat | i < |rems| && rems[i] > 0
  }

  lemma {:induction false} RemainderBound(rems: seq<nat>, total: nat)
    requires total > 0 && forall i :: 0 <= i < |rems| ==> rems[i] < total
    ensures Sum(rems) <= (total - 1) * |Positive(rems)|
    decreases |rems|
  {
    if rems != [] {
      var last := |rems| - 1;
      var rest := rems[..last];
      RemainderBound(rest, total);
      SumLast(rems);
      if rems[last] > 0 {
        assert Positive(rems) == Positive(rest) + {last};
        Distribute(total - 1, |Positive(rest)|, 1);
      } else {
        assert Positive(rems) == Positive(rest);
      }
    }
  }

  lemma {:induction false} SumLast(s: seq<nat>)
    requires s != []
    ensures Sum(s) == Sum(s[..|s| - 1]) + s[|s| - 1]
    decreases |s|
  {
    if |s| > 1 {
      SumLast(s[1..]);
      assert s[1..][..|s| - 2] == s[..|s| - 1][1..];
    }
  }

  lemma {:induction false} SubsetOfRange(s: set<nat>, n: nat)
    requires forall i :: i in s ==> i < n
    ensures |s| <= n
    decreases n
  {
    if n > 0 {
      SubsetOfRange(s - {n - 1}, n - 1);
    } else {
      assert s == {};
    }
  }

  lemma CancelFactor(factor: nat, a: int, b: nat)
    requires factor > 0 && 0 <= factor * a <= (factor - 1) * b
    ensures 0 <= a <= b && (b > 0 ==> a < b)
  {
    Monotone(b, a, factor);
    Monotone(a, -1, factor);
  }

  lemma Monotone(a: int, b: int, factor: nat)
    ensures a <= b ==> factor * a <= factor * b
  {
  }

  lemma Rest(total: nat, target: nat, floors: nat, rems: nat)
    requires total * floors + rems == target * total
    ensures total * (target - floors) == rems
  {
  }

  lemma RemaindersSmall(weights: seq<nat>, target: nat, total: nat)
    requires total > 0
    ensures forall i :: 0 <= i < |weights| ==> Remainders(weights, target, total)[i] < total
  {
  }

  /** Rounding down leaves over fewer clients than there are inexact quotas. */
  lemma LeftoverBound(weights: seq<nat>, target: nat)
    requires Sum(weights) > 0
    ensures var rems := Remainders(weights, target, Sum(weights));
      && |rems| == |weights| && 0 <= Leftover(weights, target) <= |Positive(rems)| <= |weights|
      && (Positive(rems) != {} ==> Leftover(weights, target) < |Positive(rems)|)
  {
    var total := Sum(weights);
    var rems := Remainders(weights, target, total);
    QuotasExact(weights, target, total);
    RemaindersSmall(weights, target, total);
    RemainderBound(rems, total);
    SubsetOfRange(Positive(rems), |rems|);
    assert |rems| == |weights|;
    hide Sum, Floors, Remainders, Positive;
    Rest(total, target, Sum(Floors(weights, target, total)), Sum(rems));
    CancelFactor(total, Leftover(weights, target), |Positive(rems)|);
  }

  // ---------- The main results ----------

  predicate Distinct(s: seq<nat>) {
    forall j, k :: 0 <= j < k < |s| ==> s[j] != s[k]
  }

  lemma {:induction false} RaisedAt(counts: seq<nat>, positions: seq<nat>, i: nat)
    requires Distinct(positions) && i < |counts|
    ensures Raised(counts, positions)[i] == counts[i] + if i in positions then 1 else 0
    decreases |positions|
  {
    if positions != [] {
      RaisedAt(counts, positions[..|positions| - 1], i);
      assert positions == positions[..|positions| - 1] + [positions[|positions| - 1]];
    }
  }

  lemma {:induction false} SumUpdate(s: seq<nat>, i: nat, n: nat)
    requires i < |s|
    ensures Sum(s[i := n]) == Sum(s) - s[i] + n
    decreases |s|
  {
    if i == 0 {
      assert s[0 := n][1..] == s[1..];
    } else {
      assert s[i := n][1..] == s[1..][i - 1 := n];
      SumUpdate(s[1..], i - 1, n);
    }
  }

  lemma {:induction false} RaisedSum(counts: seq<nat>, positions: seq<nat>)
    requires forall k :: 0 <= k < |positions| ==> positions[k] < |counts|
    ensures Sum(Raised(counts, positions)) == Sum(counts) + |positions|
    decreases |positions|
  {
    if positions != [] {
      var before := Raised(counts, positions[..|positions| - 1]);
      var i := positions[|positions| - 1];
      RaisedSum(counts, positions[..|positions| - 1]);
      SumUpdate(before, i, before[i] + 1);
    }
  }

  lemma FavouredFacts(weights: seq<nat>, target: nat)
    requires Sum(weights) > 0
    ensures var favoured := Favoured(weights, target);
      && |favoured| == Leftover(weights, target) && Distinct(favoured)
      && forall k :: 0 <= k < |favoured| ==> favoured[k] < |weights|
  {
    LeftoverBound(weights, target);
    hide Leftover, Remainders, Positive, Sum, Order;
    var rems := Remainders(weights, target, Sum(weights));
    assert IsOrder(rems, Order(rems, |rems|), |rems|);
  }

  /** The new counts add up to the target, exactly. */
  lemma SharesSum(weights: seq<nat>, target: nat)
    requires Sum(weights) > 0
    ensures Sum(Shares(weights, target)) == target
  {
    FavouredFacts(weights, target);
    hide Favoured, Sum, Floors;
    RaisedSum(Floors(weights, target, Sum(weights)), Favoured(weights, target));
  }

  /** Each count is its quota rounded down, or one more; only an inexact quota is rounded up. */
  lemma ShareRoundsQuota(weights: seq<nat>, target: nat, i: nat)
    requires Sum(weights) > 0 && i < |weights|
    ensures var share := Shares(weights, target)[i];
      && (share == target * weights[i] / Sum(weights) || share == target * weights[i] / Sum(weights) + 1)
      && (target * weights[i] % Sum(weights) == 0 ==> share == target * weights[i] / Sum(weights))
  {
    var floors := Floors(weights, target, Sum(weights));
    var rems := Remainders(weights, target, Sum(weights));
    FavouredFacts(weights, target);
    RaisedAt(floors, Favoured(weights, target), i);
    if rems[i] == 0 {
      ExactUnfavoured(weights, target, i);
    }
  }

  /** All inexact quotas come first, and they are more than the clients left over. */
  lemma ExactUnfavoured(weights: seq<nat>, target: nat, i: nat)
    requires Sum(weights) > 0 && i < |weights| && Remainders(weights, target, Sum(weights))[i] == 0
    ensures i !in Favoured(weights, target)
  {
    var rems := Remainders(weights, target, Sum(weights));
    var order := Order(rems, |rems|);
    LeftoverBound(weights, target);
    FavouredFacts(weights, target);
    hide Remainders, Sum, Leftover, Order;
    if i in Favoured(weights, target) {
      var k :| 0 <= k < |Favoured(weights, target)| && order[k] == i;
      forall p | p in Positive(rems) ensures p in order[..k] {
        assert p in order;
        var j :| 0 <= j < |order| && order[j] == p;
        assert j < k;
      }
      InPrefix(Positive(rems), order[..k]);
    }
  }

  lemma {:induction false} InPrefix(s: set<nat>, prefix: seq<nat>)
    requires forall p :: p in s ==> p in prefix
    ensures |s| <= |prefix|
    decreases |prefix|
  {
    if prefix == [] {
      assert s == {};
    } else {
      var last := prefix[|prefix| - 1];
      InPrefix(s - {last}, prefix[..|prefix| - 1]);
    }
  }

  lemma FavouredUpward(weights: seq<nat>, target: nat, i: nat, j: nat)
    requires Sum(weights) > 0 && i < |weights| && j < |weights| && j in Favoured(weights, target)
    requires Precedes(Remainders(weights, target, Sum(weights)), i, j)
    ensures i in Favoured(weights, target)
  {
    var rems := Remainders(weights, target, Sum(weights));
    var order := Order(rems, |rems|);
    var favoured := Favoured(weights, target);
    hide Remainders, Sum, Leftover, Order;
    assert i in order;
    var p :| 0 <= p < |order| && order[p] == i;
    var q :| 0 <= q < |favoured| && favoured[q] == j;
    assert order[q] == j;
    assert p <= q;
    assert favoured[p] == i;
  }

  /** The clients left over go to the largest remainders: whoever is rounded up has no smaller
      remainder, and in a tie no later position, than anyone who is rounded down. */
  lemma LargestRemainderFirst(weights: seq<nat>, target: nat, i: nat, j: nat)
    requires Sum(weights) > 0 && i < |weights| && j < |weights|
    requires Shares(weights, target)[j] > target * weights[j] / Sum(weights)
    requires Shares(weights, target)[i] <= target * weights[i] / Sum(weights)
    ensures var ri, rj := target * weights[i] % Sum(weights), target * weights[j] % Sum(weights); rj > ri || (rj == ri && j < i)
  {
    var floors := Floors(weights, target, Sum(weights));
    var rems := Remainders(weights, target, Sum(weights));
    FavouredFacts(weights, target);
    RaisedAt(floors, Favoured(weights, target), i);
    RaisedAt(floors, Favoured(weights, target), j);
    if rems[i] > rems[j] || (rems[i] == rems[j] && i < j) {
      FavouredUpward(weights, target, i, j);
    }
  }

  lemma QuotientGrows(a: nat, b: nat, d: nat)
    requires d > 0 && a <= b
    ensures a / d < b / d || (a / d == b / d && (a % d < b % d || a == b))
  {
    Split(a, d);
    Split(b, d);
    Monotone(b / d + 1, a / d, d);
  }

  lemma NoTarget(target: nat, a: nat, b: nat)
    requires a < b && target * a == target * b
    ensures target == 0
  {
  }

  /** A larger weight has the larger quota, and a strictly larger one unless nothing is shared. */
  lemma QuotasGrow(weights: seq<nat>, target: nat, i: nat, j: nat)
    requires Sum(weights) > 0 && i < |weights| && j < |weights| && weights[j] < weights[i]
    ensures var floors, rems := Floors(weights, target, Sum(weights)), Remainders(weights, target, Sum(weights));
      || floors[j] < floors[i]
      || (floors[j] == floors[i] && (rems[j] < rems[i] || rems[j] == rems[i] == 0))
  {
    var total := Sum(weights);
    hide Sum;
    var a, b := target * weights[j], target * weights[i];
    Monotone(weights[j], weights[i], target);
    QuotientGrows(a, b, total);
    if a == b {
      NoTarget(target, weights[j], weights[i]);
    }
  }

  /** A larger group never ends up smaller than a lesser one. */
  lemma LargerStaysLarger(weights: seq<nat>, target: nat, i: nat, j: nat)
    requires Sum(weights) > 0 && i < |weights| && j < |weights| && weights[j] < weights[i]
    ensures Shares(weights, target)[j] <= Shares(weights, target)[i]
  {
    var floors, rems := Floors(weights, target, Sum(weights)), Remainders(weights, target, Sum(weights));
    assert |floors| == |rems| == |weights|;
    QuotasGrow(weights, target, i, j);
    hide Sum, Floors, Remainders, Favoured;
    var favoured := Favoured(weights, target);
    FavouredFacts(weights, target);
    RaisedAt(floors, favoured, i);
    RaisedAt(floors, favoured, j);
    if j in favoured && rems[j] < rems[i] {
      FavouredUpward(weights, target, i, j);
    } else if rems[j] == 0 {
      ExactUnfavoured(weights, target, j);
    }
  }

  /** Equal groups differ by at most one client, and only in favour of the earlier one. */
  lemma EqualStayClose(weights: seq<nat>, target: nat, i: nat, j: nat)
    requires Sum(weights) > 0 && i < j < |weights| && weights[i] == weights[j]
    ensures Shares(weights, target)[j] <= Shares(weights, target)[i] <= Shares(weights, target)[j] + 1
  {
    var floors, rems := Floors(weights, target, Sum(weights)), Remainders(weights, target, Sum(weights));
    assert floors[i] == floors[j] && rems[i] == rems[j];
    assert |floors| == |rems| == |weights|;
    hide Sum, Floors, Remainders, Favoured;
    var favoured := Favoured(weights, target);
    FavouredFacts(weights, target);
    RaisedAt(floors, favoured, i);
    RaisedAt(floors, favoured, j);
    if j in favoured {
      FavouredUpward(weights, target, i, j);
    }
  }

  /** Redistributing a nonzero total to itself changes nothing. */
  lemma SameTotalUnchanged(weights: seq<nat>)
    requires Sum(weights) > 0
    ensures Shares(weights, Sum(weights)) == weights
  {
    var total := Sum(weights);
    forall i | 0 <= i < |weights| ensures Shares(weights, total)[i] == weights[i] {
      ShareRoundsQuota(weights, total, i);
      WholeQuota(total, weights[i]);
    }
  }

  lemma WholeQuota(total: nat, weight: nat)
    requires total > 0
    ensures total * weight / total == weight && total * weight % total == 0
  {
    Split(total * weight, total);
    Monotone(total * weight / total + 1, weight, total);
    Monotone(weight + 1, total * weight / total, total);
  }

  // ---------- The scenario ----------

  lemma {:induction false} OnesSum(n: nat)
    ensures Sum(Ones(n)) == n
  {
    if n > 0 {
      assert Ones(n)[1..] == Ones(n - 1);
      OnesSum(n - 1);
    }
  }

  lemma WeightsPositive(groups: seq<Group>)
    requires groups != []
    ensures Sum(Weights(groups)) > 0 && |Weights(groups)| == |groups|
  {
    OnesSum(|groups|);
  }

  /** A scenario with clients is scaled: each group gets its share of the target by size, rounded
      down or up. One without is split evenly, with the earlier groups ahead by at most one. */
  lemma ResizeRule(groups: seq<Group>, target: nat, i: nat)
    requires i < |groups|
    ensures Sum(Weights(groups)) > 0 && |Weights(groups)| == |groups|
    ensures var share := Shares(Weights(groups), target)[i]; var total := Sum(Counts(groups));
      if total > 0 then
        share == target * groups[i].count / total || share == target * groups[i].count / total + 1
      else
        (share == target / |groups| || share == target / |groups| + 1)
        && forall j :: 0 <= j < i ==> share <= Shares(Weights(groups), target)[j] <= share + 1
  {
    WeightsPositive(groups);
    OnesSum(|groups|);
    var weights := Weights(groups);
    hide Sum, Shares;
    ShareRoundsQuota(weights, target, i);
    if Sum(Counts(groups)) == 0 {
      forall j | 0 <= j < i ensures Shares(weights, target)[i] <= Shares(weights, target)[j] <= Shares(weights, target)[i] + 1 {
        EqualStayClose(weights, target, j, i);
      }
    }
  }

  /** An override names a client that would not exist. */
  predicate TooSmall(group: Group, count: nat) {
    exists k :: 0 <= k < |group.overrides| && group.overrides[k] >= count
  }

  /** Floors first, then one client each down the order of remainders. */
  method NewCounts(weights: seq<nat>, target: nat) returns (counts: seq<nat>)
    requires Sum(weights) > 0
    ensures counts == Shares(weights, target)
    ensures Sum(counts) == target
  {
    var total := Sum(weights);
    counts := Floors(weights, target, total);
    var rems := Remainders(weights, target, total);
    var order := Order(rems, |rems|);
    LeftoverBound(weights, target);
    SharesSum(weights, target);
    var leftover := target - Sum(counts);
    ghost var floors := counts;
    assert Favoured(weights, target) == order[..leftover];
    hide Sum, Floors, Remainders, Order, Favoured;
    for k := 0 to leftover
      invariant counts == Raised(floors, order[..k])
    {
      assert order[..k + 1][..k] == order[..k];
      counts := counts[order[k] := counts[order[k]] + 1];
    }
  }

  class Workload {
    var groups: seq<Group>

    /** Distributes `target` clients, or names the first group whose overrides would be lost. */
    method ResizeClients(target: nat) returns (short: Option<nat>)
      modifies this
      ensures old(groups) == [] ==> short.None? && groups == [Group(target, [])]
      ensures old(groups) != [] ==>
        && |groups| == |old(groups)| && Sum(Weights(old(groups))) > 0
        && var shares := Shares(Weights(old(groups)), target);
           && |shares| == |groups|
           && (short.Some? ==> short.value < |groups| && TooSmall(old(groups[short.value]), shares[short.value]))
           && (forall i :: 0 <= i < |groups| && (short.None? || i < short.value) ==>
                 !TooSmall(old(groups[i]), shares[i]) && groups[i] == old(groups[i]).(count := shares[i]))
           && (forall i :: 0 <= i < |groups| && short.Some? && i >= short.value ==> groups[i] == old(groups[i]))
      ensures short.None? ==> Sum(Counts(groups)) == target
    {
      if |groups| == 0 {
        groups := [Group(target, [])];
        assert Counts(groups) == [target];
        assert [target][1..] == [];
        return None;
      }
      WeightsPositive(groups);
      var counts := NewCounts(Weights(groups), target);
      hide Shares, Sum, TooSmall, Weights;
      short := SetCounts(counts);
      if short.None? {
        assert Counts(groups) == counts;
      }
    }

    /** Applies the new counts group by group until one would lose an override. */
    method SetCounts(counts: seq<nat>) returns (short: Option<nat>)
      requires |counts| == |groups|
      modifies this
      ensures |groups| == |old(groups)|
      ensures short.Some? ==> short.value < |groups| && TooSmall(old(groups[short.value]), counts[short.value])
      ensures forall i :: 0 <= i < |groups| && (short.None? || i < short.value) ==>
        !TooSmall(old(groups[i]), counts[i]) && groups[i] == old(groups[i]).(count := counts[i])
      ensures forall i :: 0 <= i < |groups| && short.Some? && i >= short.value ==> groups[i] == old(groups[i])
    {
      for i := 0 to |groups|
        invariant |groups| == |old(groups)|
        invariant forall j :: 0 <= j < i ==> !TooSmall(old(groups[j]), counts[j]) && groups[j] == old(groups[j]).(count := counts[j])
        invariant forall j :: i <= j < |groups| ==> groups[j] == old(groups[j])
      {
        if exists k :: 0 <= k < |groups[i].overrides| && groups[i].overrides[k] >= counts[i] {
          return Some(i);
        }
        if groups[i].count != counts[i] {
          groups := groups[i := groups[i].(count := counts[i])];
        }
      }
      return None;
    }
  }
}
