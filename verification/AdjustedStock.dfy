/**
  Whole adjustments and counts: which requests are taken, which of their lines matter, and what
  every bucket holds afterwards.
 */
module AdjustedStock {
  import opened Wrappers
  import opened StockLedger
  import opened StockOperations
  import opened Folds
  import opened PostedStock

  predicate IsReal(b: Bucket) {
    0 < b.customer && 0 < b.location && 0 < b.sku
  }

  // ----- adjustments

  predicate AsksNothing(line: AdjustLine) {
    line.finalQuantity.None? && line.finalPallets.None? && line.quantity == 0 == line.pallets
  }

  /** Asks for a change, or for both final balances and nothing else. */
  predicate IsProper(line: AdjustLine) {
    if line.finalQuantity.None? then line.finalPallets.None?
    else line.finalPallets.Some? && 0 <= line.finalQuantity.value && 0 <= line.finalPallets.value && line.quantity == 0 == line.pallets
  }

  predicate Matters(line: AdjustLine) {
    IsReal(line.bucket) && !AsksNothing(line)
  }

  /** A line about no real bucket, or one that asks for nothing, may as well be left out. */
  lemma IdleLinesDoNotMatter(db: Db, id: int, first: seq<AdjustLine>, line: AdjustLine, rest: seq<AdjustLine>,
                             occurred: Option<int>, now: int)
    requires !Matters(line)
    ensures Adjusted(db, id, first + [line] + rest, occurred, now) == Adjusted(db, id, first + rest, occurred, now)
  {
    KeptInOrder(first + [line], rest);
    KeptInOrder(first, [line]);
    KeptInOrder(first, rest);
    assert [line][..0] == [] && KeptLines([line]) == [];
    assert KeptLines(first) + [] == KeptLines(first);
  }

  lemma {:induction false} KeptMatters(lines: seq<AdjustLine>, line: AdjustLine)
    ensures line in KeptLines(lines) <==> line in lines && Matters(line)
  {
    KeptLinesAreThose(lines, line);
    assert line in multiset(lines) <==> line in lines;
    assert line in multiset(KeptLines(lines)) <==> line in KeptLines(lines);
  }

  /** An adjustment is made exactly when some line matters, all that do are proper and accepted in turn, and a row is posted. */
  lemma AdjustedExactlyWhen(db: Db, id: int, lines: seq<AdjustLine>, occurred: Option<int>, now: int)
    ensures var kept := KeptLines(lines);
            var outcome := Fold(AdjustStep(id, occurred, now), db, kept, |kept|);
            Adjusted(db, id, lines, occurred, now).Ok? <==>
              && (exists line :: line in lines && Matters(line))
              && (forall line :: line in lines && Matters(line) ==> IsProper(line))
              && outcome.Ok? && |outcome.value.ledger| != |db.ledger|
  {
    var kept := KeptLines(lines);
    forall line
      ensures line in kept <==> line in lines && Matters(line)
    {
      KeptMatters(lines, line);
    }
    if kept != [] {
      assert kept[0] in kept;
    }
    forall i | 0 <= i < |kept|
      ensures kept[i].WellFormed() <==> IsProper(kept[i])
    {
    }
    if exists i :: 0 <= i < |kept| && !kept[i].WellFormed() {
      var i :| 0 <= i < |kept| && !kept[i].WellFormed();
      assert kept[i] in kept;
    }
    forall line | line in kept
      ensures exists i :: 0 <= i < |kept| && kept[i] == line
    {
    }
  }

  /** What the lines leave in a bucket, one after the other: what they name, or what is there and what they add. */
  function LeftBy(lines: seq<AdjustLine>, m: Measure, b: Bucket, held: int): int {
    if lines == [] then held
    else
      var line, before := lines[|lines| - 1], LeftBy(lines[..|lines| - 1], m, b, held);
      if line.bucket == b then Asked(line, m, before) else before
  }

  lemma {:induction false} KeptLeaveTheSame(lines: seq<AdjustLine>, m: Measure, b: Bucket, held: int)
    requires IsReal(b)
    ensures LeftBy(KeptLines(lines), m, b, held) == LeftBy(lines, m, b, held)
  {
    if lines != [] {
      var n := |lines| - 1;
      var rest := KeptLines(lines[..n]);
      KeptLeaveTheSame(lines[..n], m, b, held);
      assert (rest + [lines[n]])[..|rest|] == rest && rest + [] == rest;
    }
  }

  lemma AdjustOneLeaves(db: Db, id: int, line: AdjustLine, occurred: Option<int>, now: int, m: Measure, b: Bucket)
    requires Valid(db) && AdjustOne(db, id, line, occurred, now).Ok?
    ensures Balance(m, AdjustOne(db, id, line, occurred, now).value.items, b)
         == if line.bucket == b then Asked(line, m, Balance(m, db.items, b)) else Balance(m, db.items, b)
  {
    AdjustOneExactly(db, id, line, occurred, now);
  }

  lemma LinesLeave(db: Db, id: int, lines: seq<AdjustLine>, occurred: Option<int>, now: int, m: Measure, b: Bucket)
    requires Valid(db)
    ensures var outcome := Fold(AdjustStep(id, occurred, now), db, lines, |lines|);
            outcome.Ok? ==> Valid(outcome.value) && Balance(m, outcome.value.items, b) == LeftBy(lines, m, b, Balance(m, db.items, b))
  {
    var step, held := AdjustStep(id, occurred, now), Balance(m, db.items, b);
    var inv := (k: nat, s: Db) => k <= |lines| && Valid(s) && Balance(m, s.items, b) == LeftBy(lines[..k], m, b, held);
    forall k: nat, s: Db | k < |lines| && inv(k, s) && step(s, lines[k]).Ok?
      ensures inv(k + 1, step(s, lines[k]).value)
    {
      AdjustStepIs(s, id, lines[k], occurred, now);
      AdjustOneKeeps(s, id, lines[k], occurred, now);
      AdjustOneLeaves(s, id, lines[k], occurred, now, m, b);
      assert lines[..k + 1][..k] == lines[..k];
    }
    FoldKeeps(step, db, lines, |lines|, inv);
    assert lines[..|lines|] == lines;
  }

  /** After an adjustment every real bucket holds what the lines about it ask for, one after the other. */
  lemma AdjustedExactly(db: Db, id: int, lines: seq<AdjustLine>, occurred: Option<int>, now: int, m: Measure, b: Bucket)
    requires Valid(db) && IsReal(b) && Adjusted(db, id, lines, occurred, now).Ok?
    ensures Balance(m, Adjusted(db, id, lines, occurred, now).value.items, b) == LeftBy(lines, m, b, Balance(m, db.items, b))
  {
    LinesLeave(db, id, KeptLines(lines), occurred, now, m, b);
    KeptLeaveTheSame(lines, m, b, Balance(m, db.items, b));
  }

  // ----- counts

  /** The first line of a real bucket. */
  predicate IsFirst(lines: seq<CountLine>, i: int)
    requires 0 <= i < |lines|
  {
    IsReal(lines[i].bucket) && forall j :: 0 <= j < i ==> lines[j].bucket != lines[i].bucket
  }

  predicate Counts(lines: seq<CountLine>, b: Bucket) {
    IsReal(b) && exists i :: 0 <= i < |lines| && lines[i].bucket == b
  }

  lemma {:induction false} ListedExactly(lines: seq<CountLine>, b: Bucket)
    ensures Listed(DistinctLines(lines), b) <==> Counts(lines, b)
  {
    if lines != [] {
      var n := |lines| - 1;
      var rest := DistinctLines(lines[..n]);
      ListedExactly(lines[..n], b);
      assert (rest + [lines[n]])[|rest|] == lines[n];
      if Listed(rest, b) {
        var k :| 0 <= k < |rest| && rest[k].bucket == b;
        assert (rest + [lines[n]])[k].bucket == b;
      }
      if Counts(lines[..n], b) {
        var i :| 0 <= i < n && lines[..n][i].bucket == b;
        assert lines[i].bucket == b;
      }
      if Counts(lines, b) && lines[n].bucket != b {
        var i :| 0 <= i < |lines| && lines[i].bucket == b;
        assert lines[..n][i].bucket == b;
      }
    }
  }

  /** The line is the first of its bucket. */
  predicate Decides(lines: seq<CountLine>, line: CountLine) {
    exists i :: 0 <= i < |lines| && IsFirst(lines, i) && lines[i] == line
  }

  lemma LastIsFirst(lines: seq<CountLine>)
    requires lines != []
    ensures var n := |lines| - 1;
            IsFirst(lines, n) <==> IsReal(lines[n].bucket) && !Counts(lines[..n], lines[n].bucket)
  {
    var n := |lines| - 1;
    if IsReal(lines[n].bucket) && !Counts(lines[..n], lines[n].bucket) {
      forall j | 0 <= j < n
        ensures lines[j].bucket != lines[n].bucket
      {
        assert lines[..n][j] == lines[j];
      }
    }
  }

  lemma DecidesGrows(lines: seq<CountLine>, line: CountLine)
    requires lines != []
    ensures var n := |lines| - 1;
            Decides(lines, line) <==> Decides(lines[..n], line) || (IsFirst(lines, n) && lines[n] == line)
  {
    var n := |lines| - 1;
    forall i | 0 <= i < n
      ensures IsFirst(lines[..n], i) <==> IsFirst(lines, i)
    {
    }
    if i :| 0 <= i < n && IsFirst(lines[..n], i) && lines[..n][i] == line {
      assert IsFirst(lines, i) && lines[i] == line;
    }
    if i :| 0 <= i < |lines| && IsFirst(lines, i) && lines[i] == line && i != n {
      assert IsFirst(lines[..n], i) && lines[..n][i] == line;
    }
  }

  lemma {:induction false} DistinctExactly(lines: seq<CountLine>, line: CountLine)
    ensures line in DistinctLines(lines) <==> Decides(lines, line)
  {
    if lines != [] {
      var n := |lines| - 1;
      DistinctExactly(lines[..n], line);
      ListedExactly(lines[..n], lines[n].bucket);
      LastIsFirst(lines);
      DecidesGrows(lines, line);
    }
  }

  /** A count is made exactly when some line is about a real bucket, the first of each is not negative, and all are accepted in turn. */
  lemma CountedExactlyWhen(db: Db, id: int, lines: seq<CountLine>, now: int)
    ensures var kept := DistinctLines(lines);
            CycleCounted(db, id, lines, now).Ok? <==>
              && (exists i :: 0 <= i < |lines| && IsFirst(lines, i))
              && (forall i :: 0 <= i < |lines| && IsFirst(lines, i) ==> 0 <= lines[i].quantity && 0 <= lines[i].pallets)
              && Fold(CountStep(id, now), db, kept, |kept|).Ok?
  {
    var kept := DistinctLines(lines);
    forall line
      ensures line in kept <==> Decides(lines, line)
    {
      DistinctExactly(lines, line);
    }
    if kept != [] {
      assert kept[0] in kept;
    }
    if k :| 0 <= k < |kept| && (kept[k].quantity < 0 || kept[k].pallets < 0) {
      assert kept[k] in kept;
    }
    forall i | 0 <= i < |lines| && IsFirst(lines, i)
      ensures lines[i] in kept
    {
      assert Decides(lines, lines[i]);
    }
  }

  /** After a count every real bucket holds what its first line says. */
  lemma CountedExactly(db: Db, id: int, lines: seq<CountLine>, now: int)
    requires Valid(db) && CycleCounted(db, id, lines, now).Ok?
    ensures var after := CycleCounted(db, id, lines, now).value;
            forall i :: 0 <= i < |lines| && IsFirst(lines, i) ==>
              && Balance(Quantity, after.items, lines[i].bucket) == lines[i].quantity
              && Balance(Pallets, after.items, lines[i].bucket) == lines[i].pallets
  {
    var kept, after := DistinctLines(lines), CycleCounted(db, id, lines, now).value;
    LinesAreDistinct(lines);
    CountedBalancesHold(db, id, kept, |kept|, now);
    forall i | 0 <= i < |lines| && IsFirst(lines, i)
      ensures Balance(Quantity, after.items, lines[i].bucket) == lines[i].quantity
      ensures Balance(Pallets, after.items, lines[i].bucket) == lines[i].pallets
    {
      DistinctExactly(lines, lines[i]);
      assert Decides(lines, lines[i]);
      var k :| 0 <= k < |kept| && kept[k] == lines[i];
    }
  }

  /** And what it held before if it has none. */
  lemma UncountedStay(db: Db, id: int, lines: seq<CountLine>, now: int, m: Measure, b: Bucket)
    requires Valid(db) && CycleCounted(db, id, lines, now).Ok? && !Counts(lines, b)
    ensures Balance(m, CycleCounted(db, id, lines, now).value.items, b) == Balance(m, db.items, b)
  {
    var kept := DistinctLines(lines);
    var step, inv := CountStep(id, now), (k: nat, s: Db) => Valid(s) && Balance(m, s.items, b) == Balance(m, db.items, b);
    ListedExactly(lines, b);
    forall k: nat, s: Db | k < |kept| && inv(k, s) && step(s, kept[k]).Ok?
      ensures inv(k + 1, step(s, kept[k]).value)
    {
      CountStepIs(s, id, kept[k], now);
      CountOneKeeps(s, id, kept[k], now);
      assert kept[k].bucket != b;
    }
    FoldKeeps(step, db, kept, |kept|, inv);
  }
}
