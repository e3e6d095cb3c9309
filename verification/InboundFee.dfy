/**
  The inbound-container fee: a NORMAL container is received once, however many receipts it
  has, so it is charged on its earliest NORMAL receipt and only there.
 */
module InboundFee {

  datatype Receipt = Receipt(id: int, container: int, normal: bool, day: int)

  datatype FeeLine = FeeLine(container: int, documentId: int, day: int)

  predicate Earlier(a: Receipt, b: Receipt) {
    a.day < b.day || (a.day == b.day && a.id < b.id)
  }

  predicate IsNormalOf(r: Receipt, container: int) {
    r.normal && r.container == container
  }

  /** r is the container's earliest NORMAL receipt by date, then id. */
  ghost predicate IsInitial(receipts: seq<Receipt>, container: int, r: Receipt) {
    && r in receipts && IsNormalOf(r, container)
    && forall s :: s in receipts && IsNormalOf(s, container) ==> s == r || Earlier(r, s)
  }

  ghost predicate DistinctIds(receipts: seq<Receipt>) {
    forall i, j :: 0 <= i < j < |receipts| ==> receipts[i].id != receipts[j].id
  }

  ghost predicate Initials(initial: map<int, Receipt>, receipts: seq<Receipt>) {
    && (forall c :: c in initial ==> IsInitial(receipts, c, initial[c]))
    && (forall r :: r in receipts && r.normal ==> r.container in initial)
  }

  method InitialNormalReceipts(receipts: seq<Receipt>) returns (initial: map<int, Receipt>)
    requires DistinctIds(receipts)
    ensures Initials(initial, receipts)
  {
    initial := map[];
    for i := 0 to |receipts|
      invariant Initials(initial, receipts[..i])
    {
      var r := receipts[i];
      assert receipts[..i + 1] == receipts[..i] + [r];
      if r.normal && (r.container !in initial || Earlier(r, initial[r.container])) {
        initial := initial[r.container := r];
      }
    }
    assert receipts[..|receipts|] == receipts;
  }

  // ----- the fee lines of one period

  function FeeCount(lines: seq<FeeLine>, container: int): nat {
    if lines == [] then 0
    else FeeCount(lines[..|lines| - 1], container) + if lines[|lines| - 1].container == container then 1 else 0
  }

  /** 1 if the container's earliest NORMAL receipt is dated in the period, otherwise 0. */
  ghost function FeeDue(receipts: seq<Receipt>, container: int, lo: int, hi: int): nat {
    if exists r :: IsInitial(receipts, container, r) && lo <= r.day < hi then 1 else 0
  }

  lemma InitialIsUnique(receipts: seq<Receipt>, container: int, a: Receipt, b: Receipt)
    requires IsInitial(receipts, container, a) && IsInitial(receipts, container, b)
    ensures a == b
  {
  }

  method ChargeInboundContainers(receipts: seq<Receipt>, lo: int, hi: int) returns (lines: seq<FeeLine>)
    requires DistinctIds(receipts)
    ensures forall c :: FeeCount(lines, c) == FeeDue(receipts, c, lo, hi)
    ensures forall l :: l in lines ==> exists r :: IsInitial(receipts, l.container, r) && l.documentId == r.id && l.day == r.day
  {
    var initial := InitialNormalReceipts(receipts);
    lines := [];
    for i := 0 to |receipts|
      invariant forall c :: FeeCount(lines, c) == if c in initial && lo <= initial[c].day < hi && initial[c] in receipts[..i] then 1 else 0
      invariant forall l :: l in lines ==>
                  && l.container in initial
                  && l.documentId == initial[l.container].id && l.day == initial[l.container].day
    {
      var r := receipts[i];
      ghost var before := lines;
      assert receipts[..i + 1] == receipts[..i] + [r];
      if lo <= r.day < hi && r.normal && initial[r.container].id == r.id {
        SameId(receipts, i, initial[r.container]);
        lines := lines + [FeeLine(r.container, r.id, r.day)];
        assert lines[..|lines| - 1] == before;
      }
    }
    assert receipts[..|receipts|] == receipts;
    forall c
      ensures FeeCount(lines, c) == FeeDue(receipts, c, lo, hi)
    {
      if c in initial {
        assert IsInitial(receipts, c, initial[c]);
      }
    }
  }

  lemma SameId(receipts: seq<Receipt>, i: nat, r: Receipt)
    requires DistinctIds(receipts) && i < |receipts| && r in receipts && r.id == receipts[i].id
    ensures r == receipts[i]
    ensures r !in receipts[..i]
  {
  }

  // ----- consecutive periods

  function ReceivedBefore(receipts: seq<Receipt>, before: int): seq<Receipt> {
    if receipts == [] then []
    else ReceivedBefore(receipts[..|receipts| - 1], before)
         + if receipts[|receipts| - 1].day < before then [receipts[|receipts| - 1]] else []
  }

  lemma {:induction false} ReceivedBeforeMembers(receipts: seq<Receipt>, before: int, r: Receipt)
    ensures r in ReceivedBefore(receipts, before) <==> r in receipts && r.day < before
  {
    if receipts != [] {
      var n := |receipts| - 1;
      ReceivedBeforeMembers(receipts[..n], before, r);
      assert receipts == receipts[..n] + [receipts[n]];
    }
  }

  /** Known receipts decide the fee of a period just as the full history does. */
  lemma KnownFee(receipts: seq<Receipt>, container: int, lo: int, hi: int)
    ensures FeeDue(ReceivedBefore(receipts, hi), container, lo, hi) == FeeDue(receipts, container, lo, hi)
  {
    forall r {
      ReceivedBeforeMembers(receipts, hi, r);
    }
    if r :| IsInitial(receipts, container, r) && lo <= r.day < hi {
      assert IsInitial(ReceivedBefore(receipts, hi), container, r);
    }
    if r :| IsInitial(ReceivedBefore(receipts, hi), container, r) && lo <= r.day < hi {
      assert IsInitial(receipts, container, r);
    }
  }

  /** The fees of the periods [cuts[0], cuts[1]), [cuts[1], cuts[2]), ... up to the n-th cut. */
  ghost function FeesOver(receipts: seq<Receipt>, container: int, cuts: seq<int>, n: nat): int
    requires n < |cuts|
  {
    if n == 0 then 0
    else FeesOver(receipts, container, cuts, n - 1)
         + FeeDue(ReceivedBefore(receipts, cuts[n]), container, cuts[n - 1], cuts[n])
  }

  /**
    Over consecutive periods, each billed from the receipts known at its own end, a container
    is charged once in all if its earliest NORMAL receipt falls in them, and never otherwise.
   */
  lemma {:induction false} ChargedOnce(receipts: seq<Receipt>, container: int, cuts: seq<int>, n: nat)
    requires n < |cuts| && forall i, j :: 0 <= i < j < |cuts| ==> cuts[i] < cuts[j]
    ensures FeesOver(receipts, container, cuts, n) == FeeDue(receipts, container, cuts[0], cuts[n])
  {
    if n > 0 {
      ChargedOnce(receipts, container, cuts, n - 1);
      KnownFee(receipts, container, cuts[n - 1], cuts[n]);
      if r :| IsInitial(receipts, container, r) && cuts[0] <= r.day < cuts[n] {
        assert IsInitial(receipts, container, r);
        forall s | IsInitial(receipts, container, s)
          ensures s == r
        {
          InitialIsUnique(receipts, container, r, s);
        }
      }
    }
  }
}
