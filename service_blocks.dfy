/**
 * `calculateAndAssignServiceBlocks` (App.tsx): houses are grouped by division
 * in order of first appearance; every Champion house is in block "Champion",
 * and the houses of another division are dealt round-robin into up to three
 * blocks A, B, C; the relabelled houses are then sorted by id.
 */
module ServiceBlocks {
  import opened Types
  import Sorting
  import Lists

  /** The houses of one division, in list order. */
  function Members(s: seq<House>, d: Division): (r: seq<House>)
    ensures |r| <= |s|
  {
    if s == [] then []
    else Members(s[..|s| - 1], d) + (if s[|s| - 1].division == d then [s[|s| - 1]] else [])
  }

  /** The divisions in order of first appearance: the keys of the grouping, in insertion order. */
  function DivisionOrder(s: seq<House>): seq<Division> {
    if s == [] then []
    else
      var prev := DivisionOrder(s[..|s| - 1]);
      if s[|s| - 1].division in prev then prev else prev + [s[|s| - 1].division]
  }

  function NumBlocks(n: nat): nat {
    if n < 3 then n else 3
  }

  /** `String.fromCharCode(65 + index % numBlocks)`. */
  function BlockLetter(index: nat, numBlocks: nat): char
    requires 0 < numBlocks <= 3
  {
    (65 + index % numBlocks) as char
  }

  /** The block of the house at position `index` among the `n` houses of division `d`. */
  function Block(d: Division, index: nat, n: nat): string
    requires index < n
  {
    if d == Champion then "Champion"
    else DivisionName(d) + " Block " + [BlockLetter(index, NumBlocks(n))]
  }

  /** One division's houses, each with its block. */
  function LabelGroup(group: seq<House>, d: Division, n: nat): (r: seq<House>)
    requires |group| <= n
    ensures |r| == |group|
  {
    if group == [] then []
    else LabelGroup(group[..|group| - 1], d, n) + [group[|group| - 1].(serviceBlock := Block(d, |group| - 1, n))]
  }

  /** The labelled groups of the divisions in `order`, one after the other. */
  function Grouped(houses: seq<House>, order: seq<Division>): seq<House> {
    if order == [] then []
    else
      var d := order[|order| - 1];
      Grouped(houses, order[..|order| - 1]) + LabelGroup(Members(houses, d), d, |Members(houses, d)|)
  }

  function HouseId(h: House): int {
    h.id
  }

  /** What the function returns. */
  function AssignedBlocks(houses: seq<House>): seq<House> {
    Sorting.SortBy(Grouped(houses, DivisionOrder(houses)), HouseId)
  }

  /** The grouping loop, then the labelling loop, then the sort by id. */
  method AssignServiceBlocks(houses: seq<House>) returns (r: seq<House>)
    ensures r == AssignedBlocks(houses)
  {
    var groups, order := GroupByDivision(houses);
    var updated: seq<House> := [];
    var k := 0;
    while k < |order|
      invariant 0 <= k <= |order|
      invariant updated == Grouped(houses, order[..k])
    {
      var d := order[k];
      assert d in order;
      updated := PushGroup(updated, groups[d], d);
      Lists.PrefixSnoc(order, k + 1);
      assert order[..k + 1][..k] == order[..k];
      k := k + 1;
    }
    assert order[..k] == order;
    r := Sorting.SortBy(updated, HouseId);
  }

  /** `houses.reduce(...)`: the houses of each division, and the divisions in order of first appearance. */
  method GroupByDivision(houses: seq<House>) returns (groups: map<Division, seq<House>>, order: seq<Division>)
    ensures order == DivisionOrder(houses)
    ensures forall d :: d in order ==> d in groups && groups[d] == Members(houses, d)
  {
    groups := map[];
    order := [];
    var i := 0;
    while i < |houses|
      invariant 0 <= i <= |houses|
      invariant GroupsOf(houses[..i], groups, order)
    {
      var h := houses[i];
      ghost var seen, before := order, groups;
      if h.division !in groups {
        groups := groups[h.division := []];
        order := order + [h.division];
      }
      groups := groups[h.division := groups[h.division] + [h]];
      assert houses[..i + 1] == houses[..i] + [h];
      GroupsOfSnoc(houses[..i], h, before, seen, groups, order);
      i := i + 1;
    }
    assert houses[..i] == houses;
  }

  /** `groups` and `order` are the grouping of the houses `p`. */
  predicate GroupsOf(p: seq<House>, groups: map<Division, seq<House>>, order: seq<Division>) {
    && order == DivisionOrder(p)
    && (forall d :: d in groups <==> d in order)
    && (forall d :: d in groups ==> groups[d] == Members(p, d))
    && (forall d :: d !in order ==> Members(p, d) == [])
  }

  lemma GroupsOfSnoc(p: seq<House>, h: House, groups: map<Division, seq<House>>, order: seq<Division>,
                     groups': map<Division, seq<House>>, order': seq<Division>)
    requires GroupsOf(p, groups, order)
    requires order' == if h.division in order then order else order + [h.division]
    requires groups' == groups[h.division := (if h.division in groups then groups[h.division] else []) + [h]]
    ensures GroupsOf(p + [h], groups', order')
  {
    var q := p + [h];
    assert q[..|p|] == p;
    forall d ensures Members(q, d) == Members(p, d) + if h.division == d then [h] else [] {
      MembersSnoc(p, h, d);
    }
  }

  /** The body of the `Object.keys(groupedByDivision).forEach` callback, for one division. */
  method PushGroup(updated: seq<House>, group: seq<House>, d: Division) returns (r: seq<House>)
    ensures r == updated + LabelGroup(group, d, |group|)
  {
    if d == Champion {
      r := PushChampion(updated, group);
      return;
    }
    var numBlocks := if 3 < |group| then 3 else |group|;
    if numBlocks == 0 {
      assert updated + LabelGroup(group, d, |group|) == updated + [];
      return updated;
    }
    r := PushLettered(updated, group, d, numBlocks);
  }

  /** `divisionHouses.forEach(h => updatedHouses.push({ ...h, serviceBlock: 'Champion' }))`. */
  method PushChampion(updated: seq<House>, group: seq<House>) returns (r: seq<House>)
    ensures r == updated + LabelGroup(group, Champion, |group|)
  {
    r := updated;
    var j := 0;
    while j < |group|
      invariant 0 <= j <= |group|
      invariant r == updated + LabelGroup(group[..j], Champion, |group|)
    {
      assert Block(Champion, j, |group|) == "Champion";
      Lists.SnocAssoc(updated, LabelGroup(group[..j], Champion, |group|), group[j].(serviceBlock := "Champion"));
      r := r + [group[j].(serviceBlock := "Champion")];
      Lists.PrefixSnoc(group, j + 1);
      LabelGroupSnoc(group[..j], group[j], Champion, |group|);
      j := j + 1;
    }
    assert group[..j] == group;
  }

  /** `divisionHouses.forEach((house, index) => ...)`: block letter `index % numBlocks`. */
  method PushLettered(updated: seq<House>, group: seq<House>, d: Division, numBlocks: nat) returns (r: seq<House>)
    requires d != Champion && numBlocks == NumBlocks(|group|) && 0 < numBlocks
    ensures r == updated + LabelGroup(group, d, |group|)
  {
    r := updated;
    var j := 0;
    while j < |group|
      invariant 0 <= j <= |group|
      invariant r == updated + LabelGroup(group[..j], d, |group|)
    {
      var block := DivisionName(d) + " Block " + [(65 + j % numBlocks) as char];
      assert block == Block(d, j, |group|);
      Lists.SnocAssoc(updated, LabelGroup(group[..j], d, |group|), group[j].(serviceBlock := block));
      r := r + [group[j].(serviceBlock := block)];
      Lists.PrefixSnoc(group, j + 1);
      LabelGroupSnoc(group[..j], group[j], d, |group|);
      j := j + 1;
    }
    assert group[..j] == group;
  }

  // ---------------------------------------------------------------------------
  // The same houses, only relabelled
  // ---------------------------------------------------------------------------

  lemma {:induction false} MembersGrow(s: seq<House>, d: Division, j: nat, k: nat)
    requires j <= k <= |s|
    ensures |Members(s[..j], d)| <= |Members(s[..k], d)|
  {
    if j < k {
      MembersGrow(s, d, j, k - 1);
      assert s[..k][..k - 1] == s[..k - 1];
    }
  }

  lemma MembersBelowAll(s: seq<House>, d: Division, k: nat)
    requires k <= |s|
    ensures |Members(s[..k], d)| <= |Members(s, d)|
  {
    MembersGrow(s, d, k, |s|);
    assert s[..|s|] == s;
  }

  /** The position of a house among the houses of its division before it. */
  lemma RankBelowSize(s: seq<House>, i: nat)
    requires i < |s|
    ensures |Members(s[..i], s[i].division)| < |Members(s, s[i].division)|
  {
    assert s[..i + 1][..i] == s[..i];
    MembersBelowAll(s, s[i].division, i + 1);
  }

  /** House `i` with the block its position among the houses of its division gives. */
  function Relabel(s: seq<House>, i: nat): (r: House)
    requires i < |s|
    ensures r == s[i].(serviceBlock := r.serviceBlock)
  {
    RankBelowSize(s, i);
    var d := s[i].division;
    s[i].(serviceBlock := Block(d, |Members(s[..i], d)|, |Members(s, d)|))
  }

  /** The first `k` houses, relabelled. */
  function RelabelPrefix(s: seq<House>, k: nat): (r: seq<House>)
    requires k <= |s|
    ensures |r| == k
  {
    if k == 0 then [] else RelabelPrefix(s, k - 1) + [Relabel(s, k - 1)]
  }

  lemma {:induction false} RelabelPrefixAt(s: seq<House>, k: nat)
    requires k <= |s|
    ensures forall i :: 0 <= i < k ==> RelabelPrefix(s, k)[i] == Relabel(s, i)
  {
    if k > 0 {
      RelabelPrefixAt(s, k - 1);
    }
  }

  /** Every house, with only its block changed. */
  function Relabelled(s: seq<House>): (r: seq<House>)
    ensures |r| == |s|
    ensures forall i :: 0 <= i < |s| ==> r[i] == s[i].(serviceBlock := r[i].serviceBlock)
  {
    RelabelPrefixAt(s, |s|);
    RelabelPrefix(s, |s|)
  }

  /**
   * The block a house is given: "Champion" in the Champion division; in
   * another division with `n` houses, the `i`-th of them gets block letter
   * `i % min(3, n)`.
   */
  lemma RelabelledBlock(s: seq<House>, i: nat)
    requires i < |s|
    ensures var d := s[i].division;
            && |Members(s[..i], d)| < |Members(s, d)|
            && Relabelled(s)[i].serviceBlock == Block(d, |Members(s[..i], d)|, |Members(s, d)|)
  {
    RankBelowSize(s, i);
    RelabelPrefixAt(s, |s|);
  }

  lemma MembersSnoc(p: seq<House>, x: House, d: Division)
    ensures Members(p + [x], d) == Members(p, d) + if x.division == d then [x] else []
  {
    assert (p + [x])[..|p|] == p;
  }

  lemma LabelGroupSnoc(g: seq<House>, x: House, d: Division, n: nat)
    requires |g| < n
    ensures LabelGroup(g + [x], d, n) == LabelGroup(g, d, n) + [x.(serviceBlock := Block(d, |g|, n))]
  {
    assert (g + [x])[..|g|] == g;
  }

  /** One division's labelled group, over the first `k` houses, is that division's part of the relabelled prefix. */
  predicate LabelledUpTo(s: seq<House>, d: Division, k: nat)
    requires k <= |s|
  {
    && |Members(s[..k], d)| <= |Members(s, d)|
    && LabelGroup(Members(s[..k], d), d, |Members(s, d)|) == Members(RelabelPrefix(s, k), d)
  }

  /** One division's labelled group is that division's part of the relabelled list. */
  lemma {:induction false} LabelGroupIsMembers(s: seq<House>, d: Division, k: nat)
    requires k <= |s|
    ensures LabelledUpTo(s, d, k)
  {
    if k == 0 {
      assert s[..k] == [];
    } else {
      LabelGroupIsMembers(s, d, k - 1);
      LabelStep(s, d, k);
    }
  }

  lemma LabelStep(s: seq<House>, d: Division, k: nat)
    requires 0 < k <= |s|
    requires LabelledUpTo(s, d, k - 1)
    ensures LabelledUpTo(s, d, k)
  {
    var n := |Members(s, d)|;
    var m := Members(s[..k - 1], d);
    var h := s[k - 1];
    var x := Relabel(s, k - 1);
    MembersBelowAll(s, d, k);
    PrefixMembers(s, d, k);
    RelabelPrefixMembers(s, d, k);
    LabelGroupGrows(m, Members(s[..k], d), Members(RelabelPrefix(s, k - 1), d), Members(RelabelPrefix(s, k), d),
                    h, x, d, n);
  }

  /** Appending a house of the division to the group appends it, labelled, to the labelled group. */
  lemma LabelGroupGrows(m: seq<House>, m': seq<House>, g: seq<House>, g': seq<House>,
                        h: House, x: House, d: Division, n: nat)
    requires |m| <= n && |m'| <= n && LabelGroup(m, d, n) == g
    requires m' == m + if h.division == d then [h] else []
    requires g' == g + if h.division == d then [x] else []
    requires h.division == d ==> x == h.(serviceBlock := Block(d, |m|, n))
    ensures LabelGroup(m', d, n) == g'
  {
    if h.division == d {
      LabelGroupSnoc(m, h, d, n);
    } else {
      assert m' == m && g' == g;
    }
  }

  lemma PrefixMembers(s: seq<House>, d: Division, k: nat)
    requires 0 < k <= |s|
    ensures Members(s[..k], d) == Members(s[..k - 1], d) + if s[k - 1].division == d then [s[k - 1]] else []
  {
    Lists.PrefixSnoc(s, k);
    MembersSnoc(s[..k - 1], s[k - 1], d);
  }

  lemma RelabelPrefixMembers(s: seq<House>, d: Division, k: nat)
    requires 0 < k <= |s|
    ensures Members(RelabelPrefix(s, k), d)
         == Members(RelabelPrefix(s, k - 1), d) + if s[k - 1].division == d then [Relabel(s, k - 1)] else []
  {
    var x := Relabel(s, k - 1);
    assert x.division == s[k - 1].division;
    MembersSnoc(RelabelPrefix(s, k - 1), x, d);
  }

  /** The concatenation of the parts of `s` of the divisions in `order`. */
  function ConcatMembers(s: seq<House>, order: seq<Division>): seq<House> {
    if order == [] then []
    else ConcatMembers(s, order[..|order| - 1]) + Members(s, order[|order| - 1])
  }

  lemma {:induction false} GroupedIsConcat(s: seq<House>, order: seq<Division>)
    ensures Grouped(s, order) == ConcatMembers(Relabelled(s), order)
  {
    if order != [] {
      GroupedIsConcat(s, order[..|order| - 1]);
      assert s[..|s|] == s;
      LabelGroupIsMembers(s, order[|order| - 1], |s|);
    }
  }

  predicate Distinct(order: seq<Division>) {
    forall i, j :: 0 <= i < j < |order| ==> order[i] != order[j]
  }

  lemma {:induction false} ConcatMembersSnoc(s: seq<House>, x: House, order: seq<Division>)
    requires Distinct(order)
    ensures multiset(ConcatMembers(s + [x], order))
            == multiset(ConcatMembers(s, order)) + if x.division in order then multiset{x} else multiset{}
  {
    if order != [] {
      var n := |order| - 1;
      var d := order[n];
      var init := order[..n];
      DistinctSplit(order);
      ConcatMembersSnoc(s, x, init);
      MembersSnoc(s, x, d);
      var inInit := if x.division in init then multiset{x} else multiset{};
      var isLast := if x.division == d then multiset{x} else multiset{};
      assert ConcatMembers(s + [x], order) == ConcatMembers(s + [x], init) + Members(s + [x], d);
      assert ConcatMembers(s, order) == ConcatMembers(s, init) + Members(s, d);
      Lists.JoinGrows(ConcatMembers(s, init), ConcatMembers(s + [x], init), Members(s, d), Members(s + [x], d), inInit, isLast);
      Lists.InLastSplit(order, x.division);
    }
  }

  /** A distinct list without its last division is distinct and does not hold that division. */
  lemma DistinctSplit(order: seq<Division>)
    requires order != [] && Distinct(order)
    ensures Distinct(order[..|order| - 1])
    ensures order[|order| - 1] !in order[..|order| - 1]
  {
    var n := |order| - 1;
    var init := order[..n];
    forall i, j | 0 <= i < j < |init| ensures init[i] != init[j] {
      assert init[i] == order[i] && init[j] == order[j];
    }
    forall i | 0 <= i < n ensures init[i] != order[n] {
      assert init[i] == order[i];
    }
  }

  lemma {:induction false} ConcatMembersPerm(s: seq<House>, order: seq<Division>)
    requires Distinct(order)
    requires forall i :: 0 <= i < |s| ==> s[i].division in order
    ensures multiset(ConcatMembers(s, order)) == multiset(s)
  {
    if s == [] {
      EmptyConcat(order);
    } else {
      var n := |s| - 1;
      ConcatMembersPerm(s[..n], order);
      ConcatMembersSnoc(s[..n], s[n], order);
      assert s[..n] + [s[n]] == s;
    }
  }

  lemma {:induction false} EmptyConcat(order: seq<Division>)
    ensures ConcatMembers([], order) == []
  {
    if order != [] {
      EmptyConcat(order[..|order| - 1]);
    }
  }

  lemma {:induction false} DivisionOrderComplete(s: seq<House>)
    ensures Distinct(DivisionOrder(s))
    ensures forall i :: 0 <= i < |s| ==> s[i].division in DivisionOrder(s)
  {
    if s != [] {
      var n := |s| - 1;
      DivisionOrderComplete(s[..n]);
      assert forall i :: 0 <= i < n ==> s[i] == s[..n][i];
    }
  }

  /**
   * Block assignment returns the houses with only their blocks changed (as
   * `Relabelled` states), each exactly once, sorted by id.
   */
  lemma AssignedBlocksSpec(houses: seq<House>)
    ensures var r := AssignedBlocks(houses);
            && multiset(r) == multiset(Relabelled(houses))
            && forall i, j :: 0 <= i < j < |r| ==> r[i].id <= r[j].id
  {
    GroupedPerm(houses);
    var r := AssignedBlocks(houses);
    assert Sorting.SortedBy(r, HouseId);
    forall i, j | 0 <= i < j < |r| ensures r[i].id <= r[j].id {
      assert HouseId(r[i]) <= HouseId(r[j]);
    }
  }

  /** Grouping and labelling neither lose nor repeat a house. */
  lemma GroupedPerm(houses: seq<House>)
    ensures multiset(Grouped(houses, DivisionOrder(houses))) == multiset(Relabelled(houses))
  {
    var order := DivisionOrder(houses);
    var rel := Relabelled(houses);
    DivisionOrderComplete(houses);
    GroupedIsConcat(houses, order);
    forall i | 0 <= i < |rel| ensures rel[i].division in order {
      assert rel[i].division == houses[i].division;
    }
    ConcatMembersPerm(rel, order);
  }

  /** Each house of the result is a house of the input with only its block changed. */
  lemma AssignedFromInput(houses: seq<House>)
    ensures var r := AssignedBlocks(houses);
            forall j :: 0 <= j < |r| ==>
              exists k :: 0 <= k < |houses| && r[j] == houses[k].(serviceBlock := r[j].serviceBlock)
  {
    GroupedPerm(houses);
    var r := AssignedBlocks(houses);
    var rel := Relabelled(houses);
    forall j | 0 <= j < |r|
      ensures exists k :: 0 <= k < |houses| && r[j] == houses[k].(serviceBlock := r[j].serviceBlock)
    {
      assert r[j] in multiset(rel);
      FromRelabelled(houses, r[j]);
    }
  }

  lemma FromRelabelled(houses: seq<House>, y: House)
    requires y in multiset(Relabelled(houses))
    ensures exists k :: 0 <= k < |houses| && y == houses[k].(serviceBlock := y.serviceBlock)
  {
    var rel := Relabelled(houses);
    assert y in rel;
    var k :| 0 <= k < |rel| && rel[k] == y;
    assert rel[k] == houses[k].(serviceBlock := rel[k].serviceBlock);
  }

  /** Each house of the input is in the result, with only its block changed. */
  lemma AssignedKeepsInput(houses: seq<House>)
    ensures var r := AssignedBlocks(houses);
            forall k :: 0 <= k < |houses| ==>
              exists j :: 0 <= j < |r| && r[j] == houses[k].(serviceBlock := r[j].serviceBlock)
  {
    GroupedPerm(houses);
    var r := AssignedBlocks(houses);
    var rel := Relabelled(houses);
    forall k | 0 <= k < |houses|
      ensures exists j :: 0 <= j < |r| && r[j] == houses[k].(serviceBlock := r[j].serviceBlock)
    {
      assert rel[k] in multiset(r);
      var j :| 0 <= j < |r| && r[j] == rel[k];
    }
  }

  /** The blocks of a division other than Champion cycle through A, B and C. */
  lemma BlocksCycle(d: Division, i: nat, n: nat)
    requires d != Champion && i + 3 < n
    ensures Block(d, i, n) == Block(d, i + 3, n)
    ensures Block(d, i, n)[|Block(d, i, n)| - 1] in {'A', 'B', 'C'}
  {
  }
}
