/**
  Where pooled pieces and pallets come from: a bucket holds what was shipped out of its own place
  under its own document and SKU, and the pallets that go with it.
 */
module OutboundPlaces {
  import opened Sums
  import opened BillingMoney
  import opened LargestRemainder
  import opened SortedSets
  import opened OutboundPallets
  import opened OutboundConfirmation

  /** The pieces of a billed line that left the place. */
  function ShippedFrom(line: Line, place: int): nat {
    if Places(line.allocations) != {} then PlaceQuantity(line.allocations, place)
    else if place == line.unassigned then line.quantity else 0
  }

  function ShippedInAll(line: Line): nat {
    if Places(line.allocations) != {} then Total(line.allocations) else line.quantity
  }

  predicate IsOf(b: Bucket, line: Line) {
    b.documentId == line.documentId && b.sku == line.sku
  }

  /** What the first n groups put into a place. */
  function PutInto(places: seq<int>, values: seq<int>, place: int, n: nat): int
    requires n <= |places| == |values|
  {
    if n == 0 then 0 else PutInto(places, values, place, n - 1) + if places[n - 1] == place then values[n - 1] else 0
  }

  function QuantitiesOf(groups: seq<Group>): (r: seq<int>)
    ensures |r| == |groups|
  {
    seq(|groups|, i requires 0 <= i < |groups| => groups[i].quantity)
  }

  lemma {:induction false} GroupsPut(pools: map<Bucket, Pool>, line: Line, groups: seq<Group>, shares: seq<nat>, n: nat, b: Bucket)
    requires n <= |groups| == |shares|
    ensures var after, was := PoolAt(AddGroups(pools, line, groups, shares, n), b), PoolAt(pools, b);
            && after.quantity == was.quantity + (if IsOf(b, line) then PutInto(PlacesOf(groups), QuantitiesOf(groups), b.place, n) else 0)
            && after.pallets == was.pallets + (if IsOf(b, line) then PutInto(PlacesOf(groups), shares, b.place, n) else 0)
  {
    if n > 0 {
      GroupsPut(pools, line, groups, shares, n - 1, b);
    }
  }

  /** Where places differ, one group at most is put into a place. */
  lemma {:induction false} PutOnce(places: seq<int>, values: seq<int>, place: int, n: nat)
    requires n <= |places| == |values| && Ascending(places)
    ensures place !in places[..n] ==> PutInto(places, values, place, n) == 0
    ensures forall i :: 0 <= i < n && places[i] == place ==> PutInto(places, values, place, n) == values[i]
  {
    if n > 0 {
      PutOnce(places, values, place, n - 1);
      if places[n - 1] == place {
        assert place !in places[..n - 1];
      }
      assert forall i :: 0 <= i < n - 1 ==> places[..n][i] == places[..n - 1][i];
      assert place in places[..n - 1] ==> place in places[..n];
    }
  }

  lemma {:induction false} NowhereElse(allocations: seq<Allocation>, place: int)
    requires place !in Places(allocations)
    ensures PlaceQuantity(allocations, place) == 0
  {
    if allocations != [] {
      var n := |allocations| - 1;
      assert allocations == allocations[..n] + [allocations[n]];
      PlacesAppend(allocations[..n], allocations[n]);
      NowhereElse(allocations[..n], place);
    }
  }

  /** The groups that a line is billed on put into every place what left it. */
  lemma GroupsTell(line: Line, groups: seq<Group>, place: int)
    requires BilledOn(line, groups)
    ensures PutInto(PlacesOf(groups), QuantitiesOf(groups), place, |groups|) == ShippedFrom(line, place)
  {
    var places, n := PlacesOf(groups), |groups|;
    assert places[..n] == places;
    if Places(line.allocations) == {} {
      assert PutInto(places, QuantitiesOf(groups), place, 1)
          == PutInto(places, QuantitiesOf(groups), place, 0) + if places[0] == place then QuantitiesOf(groups)[0] else 0;
    } else {
      PutOnce(places, QuantitiesOf(groups), place, n);
      if place in places {
        var i :| 0 <= i < n && places[i] == place;
        assert groups[i].place == place;
      } else {
        NowhereElse(line.allocations, place);
      }
    }
  }

  /** The least that a line's pallets give a place: its exact quota rounded down. */
  function Quota(line: Line, place: int): nat {
    if ShippedInAll(line) == 0 then 0 else Quotient(line.pallets * ShippedFrom(line, place), ShippedInAll(line))
  }

  function Quotient(n: nat, den: nat): nat
    requires 0 < den
  {
    n / den
  }

  function Most(line: Line, place: int): nat {
    if ShippedFrom(line, place) == 0 then 0 else Quota(line, place) + 1
  }

  lemma {:induction false} QuantitiesSum(groups: seq<Group>, n: nat)
    requires n <= |groups| && forall i :: 0 <= i < |groups| ==> 0 <= groups[i].quantity
    ensures SumTo(Quantities(groups), n) == GroupSum(groups, n)
  {
    if n > 0 {
      QuantitiesSum(groups, n - 1);
    }
  }

  /** The groups of a line hold all that it shipped. */
  lemma GroupsInAll(line: Line, groups: seq<Group>)
    requires BilledOn(line, groups)
    ensures Sum(Quantities(groups)) == ShippedInAll(line)
    ensures forall i :: 0 <= i < |groups| ==> 0 <= groups[i].quantity == ShippedFrom(line, groups[i].place)
  {
    if Places(line.allocations) == {} {
      assert SumTo(Quantities(groups), 1) == SumTo(Quantities(groups), 0) + Positive(line.quantity);
    } else {
      PositiveGroups(groups, line.allocations);
      GroupsHoldAll(groups, line.allocations);
      QuantitiesSum(groups, |groups|);
    }
  }

  lemma ShareTells(line: Line, groups: seq<Group>, i: nat)
    requires BilledOn(line, groups) && i < |groups|
    ensures Quota(line, groups[i].place) <= PalletShares(line.pallets, groups)[i] <= Most(line, groups[i].place)
  {
    GroupsInAll(line, groups);
    if 0 < line.pallets && 0 < ShippedInAll(line) {
      PalletSharesAddUp(line.pallets, groups);
      PalletSharesAreFair(line.pallets, groups, i, i);
    } else if 0 < ShippedInAll(line) {
      assert 0 * ShippedFrom(line, groups[i].place) == 0;
    }
  }

  lemma PlacesAscend(line: Line, groups: seq<Group>)
    requires BilledOn(line, groups)
    ensures Ascending(PlacesOf(groups))
    ensures forall place :: place !in PlacesOf(groups) ==> ShippedFrom(line, place) == 0
  {
    forall place | place !in PlacesOf(groups)
      ensures ShippedFrom(line, place) == 0
    {
      if Places(line.allocations) != {} {
        NowhereElse(line.allocations, place);
      } else {
        assert PlacesOf(groups)[0] == line.unassigned;
      }
    }
  }

  /** The shares of a line put into every place its exact quota, rounded down or up, and nothing where nothing left. */
  lemma SharesTell(line: Line, groups: seq<Group>, place: int)
    requires BilledOn(line, groups)
    ensures Quota(line, place) <= PutInto(PlacesOf(groups), PalletShares(line.pallets, groups), place, |groups|) <= Most(line, place)
  {
    var places, shares, n := PlacesOf(groups), PalletShares(line.pallets, groups), |groups|;
    assert places[..n] == places;
    PlacesAscend(line, groups);
    PutOnce(places, shares, place, n);
    if place in places {
      var i :| 0 <= i < n && places[i] == place;
      assert groups[i].place == place;
      ShareTells(line, groups, i);
    } else {
      assert line.pallets * 0 == 0;
    }
  }

  // ----- over all lines

  /** What the first n lines ship out of a bucket's place under its document and SKU. */
  function PiecesFor(lines: seq<Line>, b: Bucket, n: nat): nat
    requires n <= |lines|
  {
    if n == 0 then 0
    else PiecesFor(lines, b, n - 1) + if Billed(lines[n - 1]) && IsOf(b, lines[n - 1]) then ShippedFrom(lines[n - 1], b.place) else 0
  }

  function LeastPallets(lines: seq<Line>, b: Bucket, n: nat): nat
    requires n <= |lines|
  {
    if n == 0 then 0
    else LeastPallets(lines, b, n - 1) + if Billed(lines[n - 1]) && IsOf(b, lines[n - 1]) then Quota(lines[n - 1], b.place) else 0
  }

  function MostPallets(lines: seq<Line>, b: Bucket, n: nat): nat
    requires n <= |lines|
  {
    if n == 0 then 0
    else MostPallets(lines, b, n - 1) + if Billed(lines[n - 1]) && IsOf(b, lines[n - 1]) then Most(lines[n - 1], b.place) else 0
  }

  /**
    Every bucket holds the pieces that the in-range lines of its document and SKU shipped out of its
    place, no more and no fewer, and of each line's pallets the exact quota of that place, rounded.
   */
  lemma {:induction false} PoolsTell(pools: map<Bucket, Pool>, lines: seq<Line>, groups: seq<seq<Group>>, n: nat, b: Bucket)
    requires n <= |lines| && PooledFrom(pools, lines, groups, n)
    ensures PoolAt(pools, b).quantity == PiecesFor(lines, b, n)
    ensures LeastPallets(lines, b, n) <= PoolAt(pools, b).pallets <= MostPallets(lines, b, n)
    decreases n
  {
    if n > 0 {
      var line, last := lines[n - 1], groups[n - 1];
      if Billed(line) {
        var before :| PooledFrom(before, lines, groups[..n - 1], n - 1)
                      && pools == AddGroups(before, line, last, PalletShares(line.pallets, last), |last|);
        PoolsTell(before, lines, groups[..n - 1], n - 1, b);
        GroupsPut(before, line, last, PalletShares(line.pallets, last), |last|, b);
        GroupsTell(line, last, b.place);
        SharesTell(line, last, b.place);
      } else {
        PoolsTell(pools, lines, groups[..n - 1], n - 1, b);
      }
    }
  }
}
