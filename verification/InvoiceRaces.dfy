/**
  Sessions that work on invoices at the same time. A session reads and checks an invoice, and
  its write comes later, whatever others have written in between; a session may also be lost.
 */
module InvoiceRaces {
  import opened Wrappers
  import opened InvoiceLifecycle

  datatype Pending = Pending(op: Op, seen: Invoice)

  datatype Machine = Machine(book: Book, pending: map<int, Pending>)

  datatype Move = Read(session: int, op: Op) | WriteBack(session: int) | Lose(session: int)

  function Written(book: Book, op: Op, seen: Invoice): Book {
    if Write(book, op, seen).Ok? then Write(book, op, seen).value else book
  }

  /** Creating an invoice holds the customer's lock from its check to its write. */
  function Next(m: Machine, move: Move): Machine {
    match move
    case Read(session, op) =>
      if session in m.pending || Check(m.book, op).Some? then m
      else if op.Create? then m.(book := Written(m.book, op, NOTHING))
      else m.(pending := m.pending[session := Pending(op, Seen(m.book, op))])
    case WriteBack(session) =>
      if session !in m.pending then m
      else Machine(Written(m.book, m.pending[session].op, m.pending[session].seen), m.pending - {session})
    case Lose(session) => m.(pending := m.pending - {session})
  }

  ghost predicate IsPlay(states: seq<Machine>, moves: seq<Move>) {
    && |states| == |moves| + 1
    && forall i :: 0 <= i < |moves| ==> states[i + 1] == Next(states[i], moves[i])
  }

  /** However the sessions interleave, every stored total is the sum of its lines. */
  lemma {:induction false} TotalsSurviveRaces(states: seq<Machine>, moves: seq<Move>, i: nat)
    requires IsPlay(states, moves) && AllTotalsMatch(states[0].book.invoices) && i < |states|
    ensures AllTotalsMatch(states[i].book.invoices)
  {
    if i > 0 {
      TotalsSurviveRaces(states, moves, i - 1);
      var m, move := states[i - 1], moves[i - 1];
      if move.WriteBack? && move.session in m.pending {
        var p := m.pending[move.session];
        if Write(m.book, p.op, p.seen).Ok? {
          WritesKeepTotals(m.book, p.op, p.seen);
        }
      }
    }
  }

  // ----- what goes wrong

  const EMPTY := Machine(Book(map[], 1, 1), map[])
  const MAY := Scope(7, None, None, 1, 31)

  function Blank(status: Status): Invoice {
    Invoice(MAY, status, [], 0, 0, 0, "")
  }

  function One(status: Status, pending: map<int, Pending>): Machine {
    Machine(Book(map[1 := Blank(status)], 2, 1), pending)
  }

  lemma CreatingTheFirst()
    ensures Next(EMPTY, Read(1, Create(MAY, []))) == One(Draft, map[])
  {
    assert Drawn([], 1) == [];
  }

  lemma ReadingOne(status: Status, pending: map<int, Pending>, session: int, op: Op)
    requires session !in pending && !op.Create? && op.id == 1 && Accepts(op, status)
    requires op.Finalize? || op.MarkPaid? || op.VoidInvoice?
    ensures Next(One(status, pending), Read(session, op))
         == One(status, pending[session := Pending(op, Blank(status))])
  {
    assert Unreconciled([]) == {};
  }

  lemma WritingOne(status: Status, pending: map<int, Pending>, session: int)
    requires session in pending && !pending[session].op.Create? && pending[session].op.id == 1
    requires pending[session].op.Finalize? || pending[session].op.MarkPaid? || pending[session].op.VoidInvoice?
    ensures Next(One(status, pending), WriteBack(session))
         == One(Target(pending[session].op, status), pending - {session})
  {
    var invoices := map[1 := Blank(status)];
    var after := Target(pending[session].op, status);
    assert invoices[1 := Blank(after)] == map[1 := Blank(after)];
  }

  lemma Replacing(m: Machine, pending: map<int, Pending>)
    requires m == One(Void, pending) && 2 !in pending
    ensures Next(m, Read(2, Create(MAY, []))).pending == pending
    ensures Next(m, Read(2, Create(MAY, []))).book.invoices == map[1 := Blank(Void), 2 := Blank(Draft)]
  {
    assert Drawn([], 1) == [];
    assert map[1 := Blank(Void)][2 := Blank(Draft)] == map[1 := Blank(Void), 2 := Blank(Draft)];
  }

  lemma PlayGoesOn(states: seq<Machine>, moves: seq<Move>, move: Move, next: Machine)
    requires IsPlay(states, moves) && next == Next(states[|moves|], move)
    ensures IsPlay(states + [next], moves + [move])
  {
  }

  const PAYING := map[1 := Pending(MarkPaid(1), Blank(Finalized))]

  lemma Finalizing() returns (states: seq<Machine>, moves: seq<Move>)
    ensures IsPlay(states, moves) && |moves| == 3 && states[0] == EMPTY && states[3] == One(Finalized, map[])
  {
    var pending := map[1 := Pending(Finalize(1), Blank(Draft))];
    CreatingTheFirst();
    ReadingOne(Draft, map[], 1, Finalize(1));
    WritingOne(Draft, pending, 1);
    assert pending - {1} == map[];
    moves := [Read(1, Create(MAY, [])), Read(1, Finalize(1)), WriteBack(1)];
    states := [EMPTY, One(Draft, map[]), One(Draft, pending), One(Finalized, map[])];
  }

  lemma Voiding(states: seq<Machine>, moves: seq<Move>) returns (later: seq<Machine>, played: seq<Move>)
    requires IsPlay(states, moves) && states[|moves|] == One(Finalized, map[])
    ensures IsPlay(later, played) && later[0] == states[0] && later[|played|] == One(Void, PAYING)
  {
    var both := PAYING[2 := Pending(VoidInvoice(1), Blank(Finalized))];
    ReadingOne(Finalized, map[], 1, MarkPaid(1));
    ReadingOne(Finalized, PAYING, 2, VoidInvoice(1));
    WritingOne(Finalized, both, 2);
    assert both - {2} == PAYING;
    PlayGoesOn(states, moves, Read(1, MarkPaid(1)), One(Finalized, PAYING));
    later, played := states + [One(Finalized, PAYING)], moves + [Read(1, MarkPaid(1))];
    PlayGoesOn(later, played, Read(2, VoidInvoice(1)), One(Finalized, both));
    later, played := later + [One(Finalized, both)], played + [Read(2, VoidInvoice(1))];
    PlayGoesOn(later, played, WriteBack(2), One(Void, PAYING));
    later, played := later + [One(Void, PAYING)], played + [WriteBack(2)];
  }

  /**
    A payment that was checked before the invoice was voided comes back after a replacement was
    created: two live invoices bill the same period.
   */
  lemma PaymentRevivesVoidInvoice() returns (states: seq<Machine>, moves: seq<Move>)
    ensures IsPlay(states, moves) && states[0] == EMPTY
    ensures !Disjoint(states[|moves|].book.invoices)
  {
    states, moves := Finalizing();
    states, moves := Voiding(states, moves);
    var replaced := Next(One(Void, PAYING), Read(2, Create(MAY, [])));
    Replacing(One(Void, PAYING), PAYING);
    PlayGoesOn(states, moves, Read(2, Create(MAY, [])), replaced);
    states, moves := states + [replaced], moves + [Read(2, Create(MAY, []))];
    var end := Next(replaced, WriteBack(1));
    assert Live(end.book.invoices, 1) && Live(end.book.invoices, 2);
    assert Overlaps(end.book.invoices[1].scope, end.book.invoices[2].scope);
    PlayGoesOn(states, moves, WriteBack(1), end);
    states, moves := states + [end], moves + [WriteBack(1)];
  }

  /** A line that was checked while the invoice was a draft is added after it was finalized. */
  lemma LineSlipsIntoFinalizedInvoice() returns (states: seq<Machine>, moves: seq<Move>)
    ensures IsPlay(states, moves) && states[0] == EMPTY && |moves| == 5
    ensures 1 in states[4].book.invoices && states[4].book.invoices[1].status == Finalized
    ensures !Settled(states[4].book, states[5].book)
  {
    var input := LineInput("OTHER", "", 100, None);
    moves := [Read(1, Create(MAY, [])), Read(1, AddLine(1, input)), Read(2, Finalize(1)), WriteBack(2), WriteBack(1)];
    var s1 := Next(EMPTY, moves[0]);
    var s2 := Next(s1, moves[1]);
    var s3 := Next(s2, moves[2]);
    var s4 := Next(s3, moves[3]);
    var s5 := Next(s4, moves[4]);
    states := [EMPTY, s1, s2, s3, s4, s5];
    assert s1.book.invoices[1].lines == [] && s1.book.invoices[1].status == Draft;
    assert Unreconciled(s2.book.invoices[1].lines) == {};
    assert s4.book.invoices[1].status == Finalized && s4.pending[1].op == AddLine(1, input);
    assert |s5.book.invoices[1].lines| == 1;
  }

  // ----- when it goes right

  /** The write finds the status that its check saw. */
  predicate Calm(m: Machine, move: Move) {
    move.WriteBack? && move.session in m.pending ==>
      Undisturbed(m.book, m.pending[move.session].op, m.pending[move.session].seen)
  }

  ghost predicate MachineInv(m: Machine) {
    && Inv(m.book)
    && forall s :: s in m.pending ==> Accepts(m.pending[s].op, m.pending[s].seen.status)
  }

  lemma CalmMoveKeeps(m: Machine, move: Move)
    requires MachineInv(m) && Calm(m, move)
    ensures MachineInv(Next(m, move)) && Settled(m.book, Next(m, move).book)
  {
    match move {
      case Read(session, op) =>
        if op.Create? && Write(m.book, op, NOTHING).Ok? {
          FreshWriteKeeps(m.book, op, NOTHING);
        }
      case WriteBack(session) =>
        if session in m.pending {
          var p := m.pending[session];
          if Write(m.book, p.op, p.seen).Ok? {
            FreshWriteKeeps(m.book, p.op, p.seen);
          }
        }
      case Lose(session) =>
    }
  }

  /**
    When no write comes after a change of the status that it checked, every interleaving keeps the
    live invoices disjoint, the totals right and the settled invoices as they are.
   */
  lemma {:induction false} CalmPlaysKeep(states: seq<Machine>, moves: seq<Move>, i: nat, j: nat)
    requires IsPlay(states, moves) && MachineInv(states[0]) && i <= j < |states|
    requires forall k :: 0 <= k < |moves| ==> Calm(states[k], moves[k])
    ensures MachineInv(states[j]) && Settled(states[i].book, states[j].book)
    decreases j
  {
    if i < j {
      CalmPlaysKeep(states, moves, i, j - 1);
      CalmMoveKeeps(states[j - 1], moves[j - 1]);
      SettledForGood(states[i].book, states[j - 1].book, states[j].book);
    } else if j > 0 {
      CalmPlaysKeep(states, moves, j - 1, j - 1);
      CalmMoveKeeps(states[j - 1], moves[j - 1]);
    }
  }

  // ----- exactly when it goes wrong

  /** A write comes back that brings a replaced invoice to life again. */
  predicate RevivesOne(m: Machine, move: Move) {
    move.WriteBack? && move.session in m.pending
    && Write(m.book, m.pending[move.session].op, m.pending[move.session].seen).Ok?
    && Revives(m.book, m.pending[move.session].op)
  }

  /** A write comes back that changes an invoice which has left the draft since. */
  predicate UnsettlesOne(m: Machine, move: Move) {
    move.WriteBack? && move.session in m.pending
    && Write(m.book, m.pending[move.session].op, m.pending[move.session].seen).Ok?
    && Unsettles(m.book, m.pending[move.session].op)
  }

  lemma MoveSettlesExactlyWhen(m: Machine, move: Move)
    requires WellKept(m.book)
    ensures WellKept(Next(m, move).book)
    ensures Settled(m.book, Next(m, move).book) <==> !UnsettlesOne(m, move)
  {
    match move {
      case Read(session, op) =>
        if op.Create? && Write(m.book, op, NOTHING).Ok? {
          SettledExactlyWhen(m.book, op, NOTHING);
        }
      case WriteBack(session) =>
        if session in m.pending {
          var p := m.pending[session];
          if Write(m.book, p.op, p.seen).Ok? {
            SettledExactlyWhen(m.book, p.op, p.seen);
          }
        }
      case Lose(session) =>
    }
  }

  lemma MoveIsDisjointExactlyWhen(m: Machine, move: Move)
    requires Inv(m.book)
    ensures Disjoint(Next(m, move).book.invoices) <==> !RevivesOne(m, move)
  {
    match move {
      case Read(session, op) =>
        if op.Create? && Write(m.book, op, NOTHING).Ok? {
          DisjointExactlyWhen(m.book, op, NOTHING);
        }
      case WriteBack(session) =>
        if session in m.pending {
          var p := m.pending[session];
          if Write(m.book, p.op, p.seen).Ok? {
            DisjointExactlyWhen(m.book, p.op, p.seen);
          }
        }
      case Lose(session) =>
    }
  }

  lemma {:induction false} PlaysAreWellKept(states: seq<Machine>, moves: seq<Move>, i: nat)
    requires IsPlay(states, moves) && WellKept(states[0].book) && i < |states|
    ensures WellKept(states[i].book)
  {
    if i > 0 {
      PlaysAreWellKept(states, moves, i - 1);
      MoveSettlesExactlyWhen(states[i - 1], moves[i - 1]);
    }
  }

  lemma {:induction false} SettledAllTheWay(states: seq<Machine>, moves: seq<Move>, i: nat, j: nat)
    requires IsPlay(states, moves) && WellKept(states[0].book) && i <= j < |states|
    requires forall k :: 0 <= k < |moves| ==> !UnsettlesOne(states[k], moves[k])
    ensures Settled(states[i].book, states[j].book)
    decreases j
  {
    if i < j {
      SettledAllTheWay(states, moves, i, j - 1);
      PlaysAreWellKept(states, moves, j - 1);
      MoveSettlesExactlyWhen(states[j - 1], moves[j - 1]);
      SettledForGood(states[i].book, states[j - 1].book, states[j].book);
    }
  }

  /**
    In any interleaving the invoices that have left the draft keep lines, totals, notes and scope
    throughout if and only if no write comes back that unsettles one.
   */
  lemma PlaysSettleExactlyWhen(states: seq<Machine>, moves: seq<Move>)
    requires IsPlay(states, moves) && WellKept(states[0].book)
    ensures (forall i, j :: 0 <= i <= j < |states| ==> Settled(states[i].book, states[j].book))
            <==> forall k :: 0 <= k < |moves| ==> !UnsettlesOne(states[k], moves[k])
  {
    if forall k :: 0 <= k < |moves| ==> !UnsettlesOne(states[k], moves[k]) {
      forall i, j | 0 <= i <= j < |states| {
        SettledAllTheWay(states, moves, i, j);
      }
    } else {
      var k :| 0 <= k < |moves| && UnsettlesOne(states[k], moves[k]);
      PlaysAreWellKept(states, moves, k);
      MoveSettlesExactlyWhen(states[k], moves[k]);
      assert !Settled(states[k].book, states[k + 1].book);
    }
  }

  lemma {:induction false} DisjointAllTheWay(states: seq<Machine>, moves: seq<Move>, i: nat)
    requires IsPlay(states, moves) && Inv(states[0].book) && i < |states|
    requires forall k :: 0 <= k < |moves| ==> !RevivesOne(states[k], moves[k])
    ensures Inv(states[i].book)
  {
    if i > 0 {
      DisjointAllTheWay(states, moves, i - 1);
      PlaysAreWellKept(states, moves, i);
      MoveIsDisjointExactlyWhen(states[i - 1], moves[i - 1]);
    }
  }

  /** In any interleaving live invoices stay disjoint throughout if and only if no write comes back that revives one. */
  lemma PlaysAreDisjointExactlyWhen(states: seq<Machine>, moves: seq<Move>)
    requires IsPlay(states, moves) && Inv(states[0].book)
    ensures (forall i :: 0 <= i < |states| ==> Disjoint(states[i].book.invoices))
            <==> forall k :: 0 <= k < |moves| ==> !RevivesOne(states[k], moves[k])
  {
    if forall k :: 0 <= k < |moves| ==> !RevivesOne(states[k], moves[k]) {
      forall i | 0 <= i < |states| {
        DisjointAllTheWay(states, moves, i);
      }
    } else {
      var k :| 0 <= k < |moves| && RevivesOne(states[k], moves[k]);
      PlaysAreWellKept(states, moves, k);
      if Disjoint(states[k].book.invoices) {
        MoveIsDisjointExactlyWhen(states[k], moves[k]);
        assert !Disjoint(states[k + 1].book.invoices);
      }
    }
  }
}
