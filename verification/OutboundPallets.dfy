/**
  Billing outbound pallets by source container: the allocations of a shipment line are grouped,
  the line's pallets are split over the groups by largest remainder, and the shares are pooled
  into billing buckets.

  A place stands for the normalized text of container, location and section, numbered in text order.
 */
module OutboundPallets {
  import opened Sums
  import opened BillingMoney
  import opened LargestRemainder
  import opened SortedSets
  import Lifecycle

  datatype Allocation = Allocation(place: int, quantity: int)

  datatype Group = Group(place: int, quantity: int)

  /** unassigned is the place used when no source container is allocated. */
  datatype Line = Line(documentId: int, sku: int, quantity: nat, pallets: nat, inRange: bool, unassigned: int,
                       allocations: seq<Allocation>)

  // ----- grouping

  function PlaceQuantity(allocations: seq<Allocation>, place: int): nat {
    if allocations == [] then 0
    else
      var a := allocations[|allocations| - 1];
      PlaceQuantity(allocations[..|allocations| - 1], place)
      + if a.place == place && 0 < a.quantity then a.quantity else 0
  }

  function Places(allocations: seq<Allocation>): set<int> {
    set i | 0 <= i < |allocations| && 0 < allocations[i].quantity :: allocations[i].place
  }

  /** The groups of a line: every place with a positive allocation once, in text order. */
  ghost predicate Grouped(groups: seq<Group>, allocations: seq<Allocation>) {
    && Enumerates(PlacesOf(groups), Places(allocations))
    && forall i :: 0 <= i < |groups| ==> groups[i].quantity == PlaceQuantity(allocations, groups[i].place)
  }

  function PlacesOf(groups: seq<Group>): (r: seq<int>)
    ensures |r| == |groups|
  {
    seq(|groups|, i requires 0 <= i < |groups| => groups[i].place)
  }

  lemma GroupsAreUnique(a: seq<Group>, b: seq<Group>, allocations: seq<Allocation>)
    requires Grouped(a, allocations) && Grouped(b, allocations)
    ensures a == b
  {
    EnumerationIsUnique(PlacesOf(a), PlacesOf(b), Places(allocations));
    forall i | 0 <= i < |a|
      ensures a[i] == b[i]
    {
      assert PlacesOf(a)[i] == PlacesOf(b)[i];
    }
  }

  function QuantityAt(m: map<int, nat>, place: int): nat {
    if place in m then m[place] else 0
  }

  lemma PlacesAppend(s: seq<Allocation>, a: Allocation)
    ensures Places(s + [a]) == Places(s) + if 0 < a.quantity then {a.place} else {}
  {
    var longer := s + [a];
    assert longer[|s|] == a;
    forall p | p in Places(s)
      ensures p in Places(longer)
    {
      var i :| 0 <= i < |s| && 0 < s[i].quantity && s[i].place == p;
      assert longer[i] == s[i];
    }
  }

  method GroupAllocations(allocations: seq<Allocation>) returns (groups: seq<Group>)
    ensures Grouped(groups, allocations)
  {
    var byPlace: map<int, nat> := map[];
    for i := 0 to |allocations|
      invariant byPlace.Keys == Places(allocations[..i])
      invariant forall p :: QuantityAt(byPlace, p) == PlaceQuantity(allocations[..i], p)
    {
      var a := allocations[i];
      PlacesAppend(allocations[..i], a);
      assert allocations[..i + 1] == allocations[..i] + [a];
      if 0 < a.quantity {
        byPlace := byPlace[a.place := QuantityAt(byPlace, a.place) + a.quantity];
      }
    }
    assert allocations[..|allocations|] == allocations;
    var keys := SortSet(byPlace.Keys);
    groups := [];
    for i := 0 to |keys|
      invariant |groups| == i
      invariant forall k :: 0 <= k < i ==> groups[k] == Group(keys[k], PlaceQuantity(allocations, keys[k]))
    {
      assert keys[i] in keys;
      assert QuantityAt(byPlace, keys[i]) == byPlace[keys[i]];
      groups := groups + [Group(keys[i], byPlace[keys[i]])];
    }
    assert PlacesOf(groups) == keys;
  }

  // ----- splitting one line

  function Positive(q: int): nat {
    if 0 < q then q else 0
  }

  function Quantities(groups: seq<Group>): (r: seq<nat>)
    ensures |r| == |groups|
  {
    seq(|groups|, i requires 0 <= i < |groups| => Positive(groups[i].quantity))
  }

  function Quotas(total: nat, quantities: seq<nat>): (r: seq<nat>)
    ensures |r| == |quantities|
  {
    seq(|quantities|, i requires 0 <= i < |quantities| => total * quantities[i])
  }

  function PalletShares(total: int, groups: seq<Group>): (r: seq<nat>)
    ensures |r| == |groups|
  {
    var totalQuantity := Sum(Quantities(groups));
    if total <= 0 || totalQuantity <= 0 then seq(|groups|, _ => 0)
    else Shares(Quotas(total, Quantities(groups)), totalQuantity, total)
  }

  lemma {:induction false} QuotaSum(total: nat, quantities: seq<nat>, n: nat)
    requires n <= |quantities|
    ensures SumTo(Quotas(total, quantities), n) == total * SumTo(quantities, n)
  {
    if n > 0 {
      QuotaSum(total, quantities, n - 1);
      Distribute(total, SumTo(quantities, n - 1), quantities[n - 1]);
    }
  }

  lemma QuotasAreFair(total: nat, quantities: seq<nat>)
    requires 0 < Sum(quantities)
    ensures Sum(Floors(Quotas(total, quantities), Sum(quantities))) <= total
    ensures WithinCeiling(Quotas(total, quantities), Sum(quantities), total)
  {
    QuotaSum(total, quantities, |quantities|);
    FloorSumAtMost(Quotas(total, quantities), Sum(quantities), total);
  }

  /** The shares add up to the line's pallets, each its exact quota rounded down or up. */
  lemma PalletSharesAddUp(total: nat, groups: seq<Group>)
    requires 0 < total && 0 < Sum(Quantities(groups))
    ensures Sum(PalletShares(total, groups)) == total
    ensures forall i :: 0 <= i < |groups| ==>
              var quota := total * Positive(groups[i].quantity) / Sum(Quantities(groups));
              quota <= PalletShares(total, groups)[i] <= quota + 1
  {
    var raw, den := Quotas(total, Quantities(groups)), Sum(Quantities(groups));
    QuotasAreFair(total, Quantities(groups));
    SharesAreFair(raw, den, total);
    forall i | 0 <= i < |groups|
      ensures raw[i] == total * Positive(groups[i].quantity)
    {
    }
  }

  /** A group without quantity gets nothing, and a larger quantity never gets fewer pallets. */
  lemma PalletSharesAreFair(total: nat, groups: seq<Group>, i: nat, j: nat)
    requires 0 < total && 0 < Sum(Quantities(groups)) && i < |groups| && j < |groups|
    ensures groups[i].quantity <= 0 ==> PalletShares(total, groups)[i] == 0
    ensures groups[i].quantity > groups[j].quantity ==>
              PalletShares(total, groups)[i] >= PalletShares(total, groups)[j]
  {
    var raw, den := Quotas(total, Quantities(groups)), Sum(Quantities(groups));
    var a, b := Positive(groups[i].quantity), Positive(groups[j].quantity);
    assert raw[i] == total * a && raw[j] == total * b;
    QuotasAreFair(total, Quantities(groups));
    ShareAt(raw, den, total, i);
    ShareAt(raw, den, total, j);
    MultiplesGrow(total, b, a);
    if raw[i] > raw[j] {
      LargerQuotaFirst(raw, den, total, i, j);
    }
    ZeroQuota(den, total, a);
    ZeroQuota(den, total, b);
  }

  lemma ZeroQuota(den: nat, total: nat, q: nat)
    requires den > 0
    ensures q == 0 ==> total * q == 0 && (total * q) / den == 0 && (total * q) % den == 0
  {
  }

  lemma {:induction false} SomeQuantity(groups: seq<Group>, n: nat)
    requires n <= |groups| && forall i :: 0 <= i < |groups| ==> 0 < groups[i].quantity
    ensures SumTo(Quantities(groups), n) >= n
  {
    if n > 0 {
      SomeQuantity(groups, n - 1);
    }
  }

  /** The quotas' floors in place, then one pallet at a time around the ranking. */
  method AllocatePallets(total: int, groups: seq<Group>) returns (shares: seq<nat>)
    ensures shares == PalletShares(total, groups)
  {
    var n := |groups|;
    var result := new nat[n](_ => 0);
    var totalQuantity := 0;
    for i := 0 to n
      invariant totalQuantity == SumTo(Quantities(groups), i)
      invariant forall k :: 0 <= k < n ==> result[k] == 0
    {
      totalQuantity := totalQuantity + Positive(groups[i].quantity);
    }
    if total <= 0 || n == 0 || totalQuantity <= 0 {
      return result[..];
    }
    var rems, floorSum := QuotaFloors(result, total, totalQuantity, groups);
    TopUpAround(result, Ranked(rems, n), floorSum, total);
    shares := result[..];
  }

  method QuotaFloors(result: array<nat>, total: nat, den: nat, groups: seq<Group>) returns (rems: seq<nat>, floorSum: nat)
    requires result.Length == |groups| && 0 < den
    modifies result
    ensures result[..] == Floors(Quotas(total, Quantities(groups)), den)
    ensures rems == Remainders(Quotas(total, Quantities(groups)), den)
    ensures floorSum == Sum(Floors(Quotas(total, Quantities(groups)), den))
  {
    ghost var raw := Quotas(total, Quantities(groups));
    rems, floorSum := [], 0;
    for i := 0 to |groups|
      invariant forall k :: 0 <= k < i ==> result[k] == raw[k] / den
      invariant |rems| == i && forall k :: 0 <= k < i ==> rems[k] == raw[k] % den
      invariant floorSum == SumTo(Floors(raw, den), i)
    {
      var numerator := total * Positive(groups[i].quantity);
      assert raw[i] == numerator;
      result[i] := numerator / den;
      floorSum := floorSum + result[i];
      rems := rems + [numerator % den];
    }
  }

  method TopUpAround(result: array<nat>, order: seq<nat>, floorSum: nat, target: nat)
    requires order != [] && Indices(order, result.Length)
    modifies result
    ensures result[..] == TopUp(old(result[..]), order, if floorSum < target then target - floorSum else 0)
  {
    ghost var was := result[..];
    var given, offset := floorSum, 0;
    while given < target
      invariant given == floorSum + offset && (given <= target || offset == 0)
      invariant result[..] == TopUp(was, order, offset)
    {
      var index := order[offset % |order|];
      result[index] := result[index] + 1;
      given, offset := given + 1, offset + 1;
    }
  }

  // ----- pooling into buckets

  datatype Bucket = Bucket(documentId: int, sku: int, place: int)

  datatype Pool = Pool(quantity: int, pallets: nat)

  /** The groups a line is billed on: its allocations, or else all of it on the unassigned place. */
  ghost predicate BilledOn(line: Line, groups: seq<Group>) {
    if Places(line.allocations) == {} then groups == [Group(line.unassigned, line.quantity)]
    else Grouped(groups, line.allocations)
  }

  predicate Billed(line: Line) {
    line.inRange && (0 < line.quantity || 0 < line.pallets)
  }

  /** The pallets of a line that reach some bucket. */
  function BilledPallets(line: Line): nat {
    if Billed(line) && (Places(line.allocations) != {} || 0 < line.quantity) then line.pallets else 0
  }

  function LinePallets(lines: seq<Line>, n: nat): nat
    requires n <= |lines|
  {
    if n == 0 then 0 else LinePallets(lines, n - 1) + BilledPallets(lines[n - 1])
  }

  function PoolAt(pools: map<Bucket, Pool>, b: Bucket): Pool {
    if b in pools then pools[b] else Pool(0, 0)
  }

  ghost function PooledPallets(pools: map<Bucket, Pool>): int {
    SumOver(pools.Keys, b => PoolAt(pools, b).pallets)
  }

  function AddShare(pools: map<Bucket, Pool>, b: Bucket, quantity: int, pallets: nat): map<Bucket, Pool> {
    pools[b := Pool(PoolAt(pools, b).quantity + quantity, PoolAt(pools, b).pallets + pallets)]
  }

  lemma AddShareTotal(pools: map<Bucket, Pool>, b: Bucket, quantity: int, pallets: nat)
    ensures PooledPallets(AddShare(pools, b, quantity, pallets)) == PooledPallets(pools) + pallets
  {
    var after := AddShare(pools, b, quantity, pallets);
    if b in pools {
      assert after.Keys == pools.Keys;
      SumOverUpdate(pools.Keys, k => PoolAt(pools, k).pallets, k => PoolAt(after, k).pallets, b);
    } else {
      assert after.Keys == pools.Keys + {b};
      SumOverAdd(pools.Keys, k => PoolAt(after, k).pallets, b);
      SumOverEqual(pools.Keys, k => PoolAt(pools, k).pallets, k => PoolAt(after, k).pallets);
    }
  }

  /** What the line's groups and shares add to each bucket. */
  function AddGroups(pools: map<Bucket, Pool>, line: Line, groups: seq<Group>, shares: seq<nat>, n: nat): map<Bucket, Pool>
    requires n <= |groups| == |shares|
  {
    if n == 0 then pools
    else AddShare(AddGroups(pools, line, groups, shares, n - 1),
                  Bucket(line.documentId, line.sku, groups[n - 1].place), groups[n - 1].quantity, shares[n - 1])
  }

  lemma {:induction false} AddGroupsTotal(pools: map<Bucket, Pool>, line: Line, groups: seq<Group>, shares: seq<nat>, n: nat)
    requires n <= |groups| == |shares|
    ensures PooledPallets(AddGroups(pools, line, groups, shares, n)) == PooledPallets(pools) + SumTo(shares, n)
  {
    if n > 0 {
      AddGroupsTotal(pools, line, groups, shares, n - 1);
      AddShareTotal(AddGroups(pools, line, groups, shares, n - 1),
                    Bucket(line.documentId, line.sku, groups[n - 1].place), groups[n - 1].quantity, shares[n - 1]);
    }
  }

  lemma BilledShares(line: Line, groups: seq<Group>)
    requires Billed(line) && BilledOn(line, groups)
    ensures Sum(PalletShares(line.pallets, groups)) == BilledPallets(line)
  {
    var quantities := Quantities(groups);
    if Places(line.allocations) == {} {
      assert SumTo(quantities, 1) == SumTo(quantities, 0) + Positive(line.quantity);
    } else {
      PositiveGroups(groups, line.allocations);
      EmptyEnumeration(PlacesOf(groups), Places(line.allocations));
      SomeQuantity(groups, |groups|);
    }
    if 0 < Sum(quantities) && 0 < line.pallets {
      PalletSharesAddUp(line.pallets, groups);
    } else {
      ZeroShares(PalletShares(line.pallets, groups), |groups|);
    }
  }

  lemma {:induction false} ZeroShares(shares: seq<nat>, n: nat)
    requires n <= |shares| && forall i :: 0 <= i < |shares| ==> shares[i] == 0
    ensures SumTo(shares, n) == 0
  {
    if n > 0 {
      ZeroShares(shares, n - 1);
    }
  }

  lemma PositiveGroups(groups: seq<Group>, allocations: seq<Allocation>)
    requires Grouped(groups, allocations)
    ensures forall i :: 0 <= i < |groups| ==> 0 < groups[i].quantity
  {
    forall i | 0 <= i < |groups|
      ensures 0 < groups[i].quantity
    {
      assert PlacesOf(groups)[i] in PlacesOf(groups);
      PlaceIsPositive(allocations, groups[i].place);
    }
  }

  lemma {:induction false} PlaceIsPositive(allocations: seq<Allocation>, place: int)
    requires place in Places(allocations)
    ensures 0 < PlaceQuantity(allocations, place)
  {
    var n := |allocations| - 1;
    var a := allocations[n];
    assert allocations == allocations[..n] + [a];
    PlacesAppend(allocations[..n], a);
    if a.place != place || a.quantity <= 0 {
      PlaceIsPositive(allocations[..n], place);
    }
  }

  method LineGroups(line: Line) returns (groups: seq<Group>)
    ensures BilledOn(line, groups)
  {
    groups := GroupAllocations(line.allocations);
    EmptyEnumeration(PlacesOf(groups), Places(line.allocations));
    if groups == [] {
      groups := [Group(line.unassigned, line.quantity)];
    }
  }

  /**
    With no scope filter: pools every billed line's shares. The buckets hold the pallets of
    every in-range line that has an allocation or a positive quantity, and no others.
   */
  method PoolOutboundLines(lines: seq<Line>) returns (pools: map<Bucket, Pool>)
    ensures PooledPallets(pools) == LinePallets(lines, |lines|)
    ensures PooledPallets(pools) == InRangePallets(lines, |lines|) <==> forall i :: 0 <= i < |lines| ==> !Loses(lines[i])
    ensures exists groups :: PooledFrom(pools, lines, groups, |lines|)
  {
    PalletsAreConserved(lines);
    pools := map[];
    ghost var all: seq<seq<Group>> := [];
    for i := 0 to |lines|
      invariant PooledPallets(pools) == LinePallets(lines, i)
      invariant PooledFrom(pools, lines, all, i)
    {
      var line := lines[i];
      ghost var before := pools;
      var groups: seq<Group> := [];
      if Billed(line) {
        groups := LineGroups(line);
        var shares := AllocatePallets(line.pallets, groups);
        for k := 0 to |groups|
          invariant pools == AddGroups(before, line, groups, shares, k)
        {
          pools := AddShare(pools, Bucket(line.documentId, line.sku, groups[k].place), groups[k].quantity, shares[k]);
        }
        BilledShares(line, groups);
        AddGroupsTotal(before, line, groups, shares, |groups|);
      }
      assert (all + [groups])[..i] == all;
      all := all + [groups];
    }
  }

  /** pools holds, line by line, the largest-remainder shares of the line's own groups. */
  ghost predicate PooledFrom(pools: map<Bucket, Pool>, lines: seq<Line>, groups: seq<seq<Group>>, n: nat)
    requires n <= |lines|
    decreases n
  {
    |groups| == n &&
    if n == 0 then pools == map[]
    else
      var line, last := lines[n - 1], groups[n - 1];
      if !Billed(line) then PooledFrom(pools, lines, groups[..n - 1], n - 1)
      else
        && BilledOn(line, last)
        && exists before ::
             && PooledFrom(before, lines, groups[..n - 1], n - 1)
             && pools == AddGroups(before, line, last, PalletShares(line.pallets, last), |last|)
  }

  // ----- when pallets are lost

  /** An in-range line with pallets, but neither a shipped nor an allocated quantity. */
  predicate Loses(line: Line) {
    && line.inRange && 0 < line.pallets && line.quantity == 0
    && forall i :: 0 <= i < |line.allocations| ==> line.allocations[i].quantity <= 0
  }

  function InRangePallets(lines: seq<Line>, n: nat): nat
    requires n <= |lines|
  {
    if n == 0 then 0 else InRangePallets(lines, n - 1) + if lines[n - 1].inRange then lines[n - 1].pallets else 0
  }

  lemma LosingLine(line: Line)
    ensures BilledPallets(line) == if !line.inRange || Loses(line) then 0 else line.pallets
  {
    if i :| 0 <= i < |line.allocations| && 0 < line.allocations[i].quantity {
      assert line.allocations[i].place in Places(line.allocations);
    } else {
      assert Places(line.allocations) == {};
    }
  }

  lemma {:induction false} LossesAdd(lines: seq<Line>, n: nat)
    requires n <= |lines|
    ensures LinePallets(lines, n) <= InRangePallets(lines, n)
    ensures LinePallets(lines, n) == InRangePallets(lines, n) <==> forall i :: 0 <= i < n ==> !Loses(lines[i])
  {
    if n > 0 {
      LossesAdd(lines, n - 1);
      LosingLine(lines[n - 1]);
    }
  }

  /** The pallets that the lines pool are those of all in-range lines if and only if no line loses its own. */
  lemma PalletsAreConserved(lines: seq<Line>)
    ensures LinePallets(lines, |lines|) == InRangePallets(lines, |lines|) <==> forall i :: 0 <= i < |lines| ==> !Loses(lines[i])
  {
    LossesAdd(lines, |lines|);
  }

  /** The calculation would lose such a line, five pallets and no quantity; confirming a shipment never stores one. */
  lemma OneLineLoses()
    ensures Loses(Line(1, 1, 0, 5, true, 0, []))
    ensures BilledPallets(Line(1, 1, 0, 5, true, 0, [])) == 0
  {
    LosingLine(Line(1, 1, 0, 5, true, 0, []));
  }

  // ----- the charge

  /** What a bucket is charged for, in ten-thousandths: its pallets, as far as its quantity fills them. */
  function ChargedAt(pool: Pool, rule: Lifecycle.FillRule): nat {
    Lifecycle.BillablePallets(pool.pallets * UNITS, pool.quantity * UNITS, rule)
  }

  /**
    One charge for every bucket in scope that has something to charge. A line without a source
    container has the one place of its bucket, so the scope decides about it here as it does before.
   */
  method ChargePools(pools: map<Bucket, Pool>, inScope: Bucket -> bool, rule: Lifecycle.FillRule)
    returns (charges: map<Bucket, nat>)
    ensures forall b :: b in charges <==> b in pools && inScope(b) && 0 < ChargedAt(pools[b], rule)
    ensures forall b :: b in charges ==> charges[b] == ChargedAt(pools[b], rule) <= pools[b].pallets * UNITS
    ensures !rule.excludeUnderfilled && (forall b :: b in pools ==> inScope(b)) ==>
              SumOver(charges.Keys, b => ChargeAt(charges, b)) == PooledPallets(pools) * UNITS
  {
    charges := map[];
    var rest := pools.Keys;
    while rest != {}
      invariant rest <= pools.Keys
      invariant forall b :: b in charges <==> b in pools.Keys - rest && inScope(b) && 0 < ChargedAt(pools[b], rule)
      invariant forall b :: b in charges ==> charges[b] == ChargedAt(pools[b], rule)
      decreases rest
    {
      var b := PickOne(rest);
      rest := rest - {b};
      var billable := ChargedAt(pools[b], rule);
      if 0 < billable && inScope(b) {
        charges := charges[b := billable];
      }
    }
    forall b | b in charges
      ensures ChargedAt(pools[b], rule) <= pools[b].pallets * UNITS
    {
      Lifecycle.BillableIsBacked(pools[b].pallets * UNITS, pools[b].quantity * UNITS, rule);
    }
    if !rule.excludeUnderfilled && forall b :: b in pools ==> inScope(b) {
      EverythingCharged(pools, charges, rule);
    }
  }

  function ChargeAt(charges: map<Bucket, nat>, b: Bucket): nat {
    if b in charges then charges[b] else 0
  }

  /** Without a fill rule and a filter every pooled pallet is charged. */
  lemma EverythingCharged(pools: map<Bucket, Pool>, charges: map<Bucket, nat>, rule: Lifecycle.FillRule)
    requires !rule.excludeUnderfilled
    requires forall b :: b in charges <==> b in pools && 0 < ChargedAt(pools[b], rule)
    requires forall b :: b in charges ==> charges[b] == ChargedAt(pools[b], rule)
    ensures SumOver(charges.Keys, b => ChargeAt(charges, b)) == PooledPallets(pools) * UNITS
  {
    SumOverSuperset(charges.Keys, pools.Keys, b => ChargeAt(charges, b));
    SumOverTimes(pools.Keys, b => PoolAt(pools, b).pallets, UNITS, b => ChargeAt(charges, b));
  }
}
