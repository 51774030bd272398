/**
 * The collected-pet ledger of App.tsx (`updateCollectedPets`): one entry per
 * pet type that has pets in stock. The daily briefing adds and removes
 * collected S pets through the same update.
 */
module Ledger {
  import opened Wrappers
  import opened Types

  /** One entry after adding `q` pets of type `t`. */
  function Added(p: CollectedPet, t: NpcType, q: int): CollectedPet {
    if p.petType == t then p.(quantity := p.quantity + q) else p
  }

  /** Every entry of type `t` gets `q` more. */
  function AddTo(pets: seq<CollectedPet>, t: NpcType, q: int): (r: seq<CollectedPet>)
    ensures |r| == |pets|
    ensures forall i :: 0 <= i < |pets| ==> r[i] == Added(pets[i], t, q)
  {
    if pets == [] then [] else [Added(pets[0], t, q)] + AddTo(pets[1..], t, q)
  }

  predicate InStock(p: CollectedPet) {
    p.quantity > 0
  }

  /** `.filter(p => p.quantity > 0)`. */
  function Prune(pets: seq<CollectedPet>): (r: seq<CollectedPet>)
    ensures |r| <= |pets|
  {
    if pets == [] then []
    else (if InStock(pets[0]) then [pets[0]] else []) + Prune(pets[1..])
  }

  /** What pruning keeps: exactly the entries in stock. */
  lemma {:induction false} PruneMembers(pets: seq<CollectedPet>)
    ensures forall x :: x in Prune(pets) <==> x in pets && InStock(x)
  {
    if pets != [] {
      PruneMembers(pets[1..]);
      assert pets == [pets[0]] + pets[1..];
    }
  }

  /**
   * Add `q` (possibly negative) pets of type `t`: an existing type is updated
   * and every entry left without pets is dropped; a new type is appended
   * only for a positive quantity.
   */
  function UpdateCollectedPets(pets: seq<CollectedPet>, t: NpcType, q: int): seq<CollectedPet> {
    if FindCollected(pets, t).Some? then Prune(AddTo(pets, t, q))
    else if q > 0 then pets + [CollectedPet(t, q)]
    else pets
  }

  /** A ledger as the update keeps it: one entry per type, each with pets in stock. */
  predicate WellFormed(pets: seq<CollectedPet>) {
    && (forall i, j :: 0 <= i < j < |pets| ==> pets[i].petType != pets[j].petType)
    && (forall i :: 0 <= i < |pets| ==> pets[i].quantity > 0)
  }

  function AtLeastZero(x: int): nat {
    if x > 0 then x else 0
  }

  predicate Distinct(pets: seq<CollectedPet>) {
    forall i, j :: 0 <= i < j < |pets| ==> pets[i].petType != pets[j].petType
  }

  lemma QuantityCons(x: CollectedPet, s: seq<CollectedPet>, u: NpcType)
    ensures FindCollected([x] + s, u).Some? == (x.petType == u || FindCollected(s, u).Some?)
    ensures CollectedQuantity([x] + s, u) == if x.petType == u then x.quantity else CollectedQuantity(s, u)
  {
    assert ([x] + s)[1..] == s;
  }

  lemma HeadTypeFresh(pets: seq<CollectedPet>)
    requires pets != [] && Distinct(pets)
    ensures Distinct(pets[1..])
    ensures forall y :: y in pets[1..] ==> y.petType != pets[0].petType
    ensures FindCollected(pets[1..], pets[0].petType).None?
  {
    forall y | y in pets[1..] ensures y.petType != pets[0].petType {
      var j :| 0 <= j < |pets[1..]| && pets[1..][j] == y;
      assert pets[j + 1] == y;
    }
  }

  /** Every entry left after pruning has the type of some entry of the old ledger. */
  lemma PruneTypes(pets: seq<CollectedPet>, t: NpcType, q: int, x: CollectedPet)
    requires x in Prune(AddTo(pets, t, q))
    ensures exists i :: 0 <= i < |pets| && pets[i].petType == x.petType
  {
    var a := AddTo(pets, t, q);
    PruneMembers(a);
    assert x in a;
    var i :| 0 <= i < |a| && a[i] == x;
    assert pets[i].petType == x.petType;
  }

  /** Adding then pruning, one entry at a time. */
  lemma PruneAddCons(pets: seq<CollectedPet>, t: NpcType, q: int)
    requires pets != []
    ensures Prune(AddTo(pets, t, q))
            == (if InStock(Added(pets[0], t, q)) then [Added(pets[0], t, q)] else []) + Prune(AddTo(pets[1..], t, q))
  {
    assert AddTo(pets, t, q)[1..] == AddTo(pets[1..], t, q);
  }

  /** Pruning keeps one entry per type. */
  lemma {:induction false} PruneDistinct(pets: seq<CollectedPet>, t: NpcType, q: int)
    requires Distinct(pets)
    ensures Distinct(Prune(AddTo(pets, t, q)))
  {
    if pets != [] {
      var rest := pets[1..];
      HeadTypeFresh(pets);
      PruneDistinct(rest, t, q);
      PruneAddCons(pets, t, q);
      var head := Added(pets[0], t, q);
      var tail := Prune(AddTo(rest, t, q));
      var r := Prune(AddTo(pets, t, q));
      forall x | x in tail ensures x.petType != head.petType {
        PruneTypes(rest, t, q, x);
      }
      if InStock(head) {
        forall i, j | 0 <= i < j < |r| ensures r[i].petType != r[j].petType {
          if i == 0 {
            assert r[j] == tail[j - 1];
          } else {
            assert r[i] == tail[i - 1] && r[j] == tail[j - 1];
          }
        }
      }
    }
  }

  /** What adding then pruning leaves as the count of `u`. */
  function PrunedCount(pets: seq<CollectedPet>, t: NpcType, q: int, u: NpcType): int {
    if u == t && FindCollected(pets, t).Some? then AtLeastZero(CollectedQuantity(pets, t) + q)
    else CollectedQuantity(pets, u)
  }

  lemma WellFormedTail(pets: seq<CollectedPet>)
    requires pets != [] && WellFormed(pets)
    ensures WellFormed(pets[1..])
  {
    assert forall i :: 0 <= i < |pets[1..]| ==> pets[1..][i] == pets[i + 1];
  }

  /** The count of a type in a ledger, read off its first entry. */
  lemma QuantityHead(pets: seq<CollectedPet>, u: NpcType)
    requires pets != []
    ensures FindCollected(pets, u).Some? == (pets[0].petType == u || FindCollected(pets[1..], u).Some?)
    ensures CollectedQuantity(pets, u) == if pets[0].petType == u then pets[0].quantity else CollectedQuantity(pets[1..], u)
  {
  }

  /** One step of `PruneQuantities` for the type of the first entry, which the rest does not hold. */
  lemma PruneQuantitiesHead(pets: seq<CollectedPet>, t: NpcType, q: int)
    requires pets != [] && InStock(pets[0]) && FindCollected(pets[1..], pets[0].petType).None?
    requires CollectedQuantity(Prune(AddTo(pets[1..], t, q)), pets[0].petType) == PrunedCount(pets[1..], t, q, pets[0].petType)
    ensures CollectedQuantity(Prune(AddTo(pets, t, q)), pets[0].petType) == PrunedCount(pets, t, q, pets[0].petType)
  {
    var x, rest := pets[0], pets[1..];
    PruneAddCons(pets, t, q);
    QuantityHead(pets, x.petType);
    assert CollectedQuantity(rest, x.petType) == 0;
    PruneHeadCount(x, Prune(AddTo(rest, t, q)), t, q);
  }

  /** One step of `PruneQuantities` for a type other than the first entry's. */
  lemma PruneQuantitiesOther(pets: seq<CollectedPet>, t: NpcType, q: int, u: NpcType)
    requires pets != [] && pets[0].petType != u
    requires CollectedQuantity(Prune(AddTo(pets[1..], t, q)), u) == PrunedCount(pets[1..], t, q, u)
    ensures CollectedQuantity(Prune(AddTo(pets, t, q)), u) == PrunedCount(pets, t, q, u)
  {
    PruneAddCons(pets, t, q);
    QuantityHead(pets, u);
    QuantityHead(pets, t);
    PruneOtherCount(pets[0], Prune(AddTo(pets[1..], t, q)), t, q, u);
  }

  /** The count of the head's own type after adding and pruning, when the rest does not hold it. */
  lemma PruneHeadCount(x: CollectedPet, tail: seq<CollectedPet>, t: NpcType, q: int)
    requires InStock(x) && CollectedQuantity(tail, x.petType) == 0
    ensures var head := Added(x, t, q);
            CollectedQuantity((if InStock(head) then [head] else []) + tail, x.petType)
            == if x.petType == t then AtLeastZero(x.quantity + q) else x.quantity
  {
    var head := Added(x, t, q);
    if InStock(head) {
      QuantityCons(head, tail, x.petType);
    } else {
      assert [] + tail == tail;
    }
  }

  /** The count of any other type after adding and pruning is the tail's. */
  lemma PruneOtherCount(x: CollectedPet, tail: seq<CollectedPet>, t: NpcType, q: int, u: NpcType)
    requires x.petType != u
    ensures var head := Added(x, t, q);
            CollectedQuantity((if InStock(head) then [head] else []) + tail, u) == CollectedQuantity(tail, u)
  {
    var head := Added(x, t, q);
    if InStock(head) {
      QuantityCons(head, tail, u);
    } else {
      assert [] + tail == tail;
    }
  }

  /** Pruning sets the count of `t` to its old count plus `q` (none when not positive) and keeps the others. */
  lemma {:induction false} PruneQuantities(pets: seq<CollectedPet>, t: NpcType, q: int, u: NpcType)
    requires WellFormed(pets)
    ensures CollectedQuantity(Prune(AddTo(pets, t, q)), u) == PrunedCount(pets, t, q, u)
  {
    if pets != [] {
      var rest := pets[1..];
      HeadTypeFresh(pets);
      WellFormedTail(pets);
      PruneQuantities(rest, t, q, u);
      if pets[0].petType == u {
        PruneQuantitiesHead(pets, t, q);
      } else {
        PruneQuantitiesOther(pets, t, q, u);
      }
    }
  }

  /**
   * On a well-formed ledger the update keeps it well formed, sets the count
   * of `t` to its old count plus `q` (none when that is not positive), and
   * leaves every other type's count alone.
   */
  lemma UpdateCollectedPetsSpec(pets: seq<CollectedPet>, t: NpcType, q: int)
    requires WellFormed(pets)
    ensures var r := UpdateCollectedPets(pets, t, q);
            && WellFormed(r)
            && CollectedQuantity(r, t) == AtLeastZero(CollectedQuantity(pets, t) + q)
            && forall u :: u != t ==> CollectedQuantity(r, u) == CollectedQuantity(pets, u)
  {
    var r := UpdateCollectedPets(pets, t, q);
    if FindCollected(pets, t).Some? {
      PruneDistinct(pets, t, q);
      PruneMembers(AddTo(pets, t, q));
      forall i | 0 <= i < |r| ensures r[i].quantity > 0 {
        assert r[i] in r;
      }
      PruneQuantities(pets, t, q, t);
      forall u | u != t ensures CollectedQuantity(r, u) == CollectedQuantity(pets, u) {
        PruneQuantities(pets, t, q, u);
      }
    } else if q > 0 {
      AppendedFound(pets, t, q);
      assert r == pets + [CollectedPet(t, q)];
      assert forall i :: 0 <= i < |pets| ==> pets[i].petType != t;
    }
  }

  lemma {:induction false} AppendedFound(pets: seq<CollectedPet>, t: NpcType, q: int)
    requires FindCollected(pets, t).None?
    ensures FindCollected(pets + [CollectedPet(t, q)], t) == Some(|pets|)
    ensures forall u :: u != t ==> FindCollected(pets + [CollectedPet(t, q)], u) == FindCollected(pets, u)
  {
    if pets != [] {
      assert (pets + [CollectedPet(t, q)])[1..] == pets[1..] + [CollectedPet(t, q)];
      AppendedFound(pets[1..], t, q);
    }
    forall u | u != t ensures FindCollected(pets + [CollectedPet(t, q)], u) == FindCollected(pets, u) {
      AppendedOther(pets, CollectedPet(t, q), u);
    }
  }

  /** Appending an entry of another type does not move the first entry of `u`. */
  lemma {:induction false} AppendedOther(pets: seq<CollectedPet>, x: CollectedPet, u: NpcType)
    requires x.petType != u
    ensures FindCollected(pets + [x], u) == FindCollected(pets, u)
  {
    if pets != [] {
      assert (pets + [x])[1..] == pets[1..] + [x];
      AppendedOther(pets[1..], x, u);
    }
  }

  /** A type that is not in the ledger and a quantity that is not positive leave the ledger as it is. */
  lemma UpdateAbsentNonPositive(pets: seq<CollectedPet>, t: NpcType, q: int)
    requires forall i :: 0 <= i < |pets| ==> pets[i].petType != t
    requires q <= 0
    ensures UpdateCollectedPets(pets, t, q) == pets
  {
  }
}
