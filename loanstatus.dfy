/** What the loan listing and the open-loan probe compute over the loan tables:
    headers (EMPRESTIMO), lines (EMPRESTIMO_LIVRO), the per-loan sums of the
    lines that survive the WHERE filters, and the three status predicates the
    HAVING clause tests. Dates are day numbers. */
module LoanStatus {
  import opened Common

  /** A loan line: how many copies of a book were lent and how many came back. */
  datatype Line = Line(loan: int, book: int, lent: int, returned: int)

  /** A loan header. `returnDate` is NULL until the loan is returned. */
  datatype Header = Header(id: int, borrower: int, staff: int, loanDate: int, dueDate: int,
                           returnDate: Option<int>, note: Option<string>)

  /** `SUM(EL.QUANTIDADEDEVOLVIDA)` and `SUM(EL.QUANTIDADEEMPRESTADA)` over a
      group: NULL when no row of the group carries a line. */
  datatype Sums = NullSums | Sums(returned: int, lent: int)

  datatype Status = Pendente | Atrasado | Devolvido

  function SumReturned(ls: seq<Line>): int
  {
    if ls == [] then 0 else ls[0].returned + SumReturned(ls[1..])
  }

  function SumLent(ls: seq<Line>): int
  {
    if ls == [] then 0 else ls[0].lent + SumLent(ls[1..])
  }

  function SumsOf(ls: seq<Line>): (s: Sums)
    ensures s.NullSums? <==> ls == []
  {
    if ls == [] then NullSums else Sums(SumReturned(ls), SumLent(ls))
  }

  /** The HAVING test of one status: `'1'` Pendente, `'0'` Atrasado, `'2'` Devolvido.
      A comparison with NULL is not true, so no status holds of `NullSums`. */
  predicate Holds(st: Status, s: Sums, today: int, due: int)
  {
    match st
    case Pendente => s.Sums? && s.returned < s.lent
    case Atrasado => s.Sums? && s.returned < s.lent && today > due
    case Devolvido => s.Sums? && s.returned == s.lent
  }

  /** The statuses `situacao` selects, in the order the controller tests them;
      `includes` compares strictly, so only the strings "1", "0" and "2" count. */
  function SelectedStatuses(situacao: Field): (r: seq<Status>)
    ensures Pendente in r <==> FieldTruthy(situacao) && Str("1") in AsList(situacao)
    ensures Atrasado in r <==> FieldTruthy(situacao) && Str("0") in AsList(situacao)
    ensures Devolvido in r <==> FieldTruthy(situacao) && Str("2") in AsList(situacao)
    ensures |r| <= 3
  {
    if !FieldTruthy(situacao) then []
    else
      var xs := AsList(situacao);
      (if Str("1") in xs then [Pendente] else []) +
      (if Str("0") in xs then [Atrasado] else []) +
      (if Str("2") in xs then [Devolvido] else [])
  }

  /** The HAVING clause: the selected statuses OR-ed; no clause when none is selected. */
  predicate HavingHolds(sts: seq<Status>, s: Sums, today: int, due: int)
  {
    sts == [] || exists i :: 0 <= i < |sts| && Holds(sts[i], s, today, due)
  }

  /** The filters of a listing request, once Postgres has cast the parameters. */
  datatype LoanQuery = LoanQuery(
    persons: Option<seq<int>>, books: Option<seq<int>>,
    loanFrom: Option<int>, loanTo: Option<int>,
    returnFrom: Option<int>, returnTo: Option<int>,
    statuses: seq<Status>)

  /** One row of `EMPRESTIMO LEFT JOIN EMPRESTIMO_LIVRO`: a loan without lines
      yields one row whose line columns are NULL. */
  datatype Row = NullRow | LineRow(line: Line)

  function LinesOf(lines: seq<Line>, id: int): (r: seq<Line>)
    ensures forall i :: 0 <= i < |r| ==> r[i].loan == id && r[i] in lines
    ensures forall l :: l in lines && l.loan == id ==> l in r
  {
    if lines == [] then []
    else (if lines[0].loan == id then [lines[0]] else []) + LinesOf(lines[1..], id)
  }

  function Rows(ls: seq<Line>): (r: seq<Row>)
    ensures ls == [] ==> r == [NullRow]
    ensures ls != [] ==> |r| == |ls| && forall i :: 0 <= i < |ls| ==> r[i] == LineRow(ls[i])
  {
    if ls == [] then [NullRow] else seq(|ls|, i requires 0 <= i < |ls| => LineRow(ls[i]))
  }

  /** A comparison with a NULL return date is not true. */
  predicate OnOrAfter(d: Option<int>, bound: Option<int>) { bound.None? || (d.Some? && d.value >= bound.value) }
  predicate OnOrBefore(d: Option<int>, bound: Option<int>) { bound.None? || (d.Some? && d.value <= bound.value) }

  /** The WHERE clause on one row of a loan. */
  predicate RowPasses(q: LoanQuery, h: Header, r: Row)
  {
    (q.persons.None? || h.borrower in q.persons.value) &&
    (q.books.None? || (r.LineRow? && r.line.book in q.books.value)) &&
    OnOrAfter(Some(h.loanDate), q.loanFrom) && OnOrBefore(Some(h.loanDate), q.loanTo) &&
    OnOrAfter(h.returnDate, q.returnFrom) && OnOrBefore(h.returnDate, q.returnTo)
  }

  function Survivors(q: LoanQuery, h: Header, rows: seq<Row>): (r: seq<Row>)
    ensures forall x :: x in r <==> x in rows && RowPasses(q, h, x)
  {
    if rows == [] then []
    else (if RowPasses(q, h, rows[0]) then [rows[0]] else []) + Survivors(q, h, rows[1..])
  }

  function LinesIn(rows: seq<Row>): seq<Line>
  {
    if rows == [] then []
    else (if rows[0].LineRow? then [rows[0].line] else []) + LinesIn(rows[1..])
  }

  /** The sums of one group: its surviving rows' lines. */
  function GroupSums(rows: seq<Row>): Sums { SumsOf(LinesIn(rows)) }

  /** A loan appears in the listing when its borrower and its employee exist
      (inner joins), some row survives WHERE, and the HAVING clause holds of the
      sums of the surviving rows. */
  predicate Listed(q: LoanQuery, h: Header, lines: seq<Line>, persons: set<int>, staff: set<int>, today: int)
  {
    var survivors := Survivors(q, h, Rows(LinesOf(lines, h.id)));
    h.borrower in persons && h.staff in staff && survivors != [] &&
    HavingHolds(q.statuses, GroupSums(survivors), today, h.dueDate)
  }

  /** The ids of the listed loans (the query has no ORDER BY). */
  function Listing(q: LoanQuery, headers: map<int, Header>, lines: seq<Line>,
                   persons: set<int>, staff: set<int>, today: int): (r: set<int>)
    ensures forall id :: id in r <==> id in headers && Listed(q, headers[id], lines, persons, staff, today)
  {
    set id | id in headers && Listed(q, headers[id], lines, persons, staff, today)
  }

  /** The lines of `ls` whose book is in `bs`, in order. */
  function WithBooks(ls: seq<Line>, bs: seq<int>): (r: seq<Line>)
    ensures forall l :: l in r <==> l in ls && l.book in bs
  {
    if ls == [] then []
    else (if ls[0].book in bs then [ls[0]] else []) + WithBooks(ls[1..], bs)
  }

  // ------------------------------------------------------------------ lemmas

  /** Every Atrasado loan is also Pendente: Pendente has no date test. */
  lemma AtrasadoIsPendente(s: Sums, today: int, due: int)
    ensures Holds(Atrasado, s, today, due) ==> Holds(Pendente, s, today, due)
    ensures Holds(Atrasado, s, today, due) <==> Holds(Pendente, s, today, due) && today > due
  {
  }

  /** The three statuses on a group with lines, in terms of its lines. */
  lemma StatusOfLines(ls: seq<Line>, today: int, due: int)
    requires ls != []
    ensures Holds(Devolvido, SumsOf(ls), today, due) <==> SumReturned(ls) == SumLent(ls)
    ensures Holds(Pendente, SumsOf(ls), today, due) <==> SumReturned(ls) < SumLent(ls)
    ensures Holds(Atrasado, SumsOf(ls), today, due) <==> SumReturned(ls) < SumLent(ls) && today > due
    ensures !(Holds(Devolvido, SumsOf(ls), today, due) && Holds(Pendente, SumsOf(ls), today, due))
  {
  }

  predicate NoOverReturn(ls: seq<Line>) { forall i :: 0 <= i < |ls| ==> ls[i].returned <= ls[i].lent }
  predicate AllReturned(ls: seq<Line>) { forall i :: 0 <= i < |ls| ==> ls[i].returned == ls[i].lent }

  lemma {:induction false} SumsBelow(ls: seq<Line>)
    requires NoOverReturn(ls)
    ensures SumReturned(ls) <= SumLent(ls)
    ensures SumReturned(ls) == SumLent(ls) <==> AllReturned(ls)
  {
    if ls != [] {
      assert NoOverReturn(ls[1..]) by {
        forall i | 0 <= i < |ls[1..]| ensures ls[1..][i].returned <= ls[1..][i].lent {
          assert ls[1..][i] == ls[i + 1];
        }
      }
      SumsBelow(ls[1..]);
      if AllReturned(ls) {
        assert AllReturned(ls[1..]) by {
          forall i | 0 <= i < |ls[1..]| ensures ls[1..][i].returned == ls[1..][i].lent {
            assert ls[1..][i] == ls[i + 1];
          }
        }
      }
      if AllReturned(ls[1..]) && ls[0].returned == ls[0].lent {
        forall i | 0 <= i < |ls| ensures ls[i].returned == ls[i].lent {
          if i > 0 { assert ls[i] == ls[1..][i - 1]; }
        }
      }
    }
  }

  /** When no line was over-returned, Devolvido means every line came back in full. */
  lemma DevolvidoMeansAllReturned(ls: seq<Line>, today: int, due: int)
    requires ls != [] && NoOverReturn(ls)
    ensures Holds(Devolvido, SumsOf(ls), today, due) <==> AllReturned(ls)
  {
    SumsBelow(ls);
  }

  /** The return path has no upper bound, so one line may be over-returned; the
      sums then balance and the loan reads Devolvido while a line is still open. */
  lemma DevolvidoWithOpenLine()
    ensures var ls := [Line(1, 10, 2, 3), Line(1, 11, 2, 1)];
      Holds(Devolvido, SumsOf(ls), 0, 0) && ls[1].returned < ls[1].lent
  {
    var ls := [Line(1, 10, 2, 3), Line(1, 11, 2, 1)];
    assert ls[1..] == [Line(1, 11, 2, 1)];
    assert ls[1..][1..] == [];
  }

  lemma {:induction false} LinesInRows(ls: seq<Line>)
    requires ls != []
    ensures LinesIn(Rows(ls)) == ls
    decreases |ls|
  {
    var rows := Rows(ls);
    assert rows[0] == LineRow(ls[0]);
    if |ls| > 1 {
      assert rows[1..] == Rows(ls[1..]);
      LinesInRows(ls[1..]);
      assert ls == [ls[0]] + ls[1..];
    } else {
      assert rows[1..] == [];
    }
  }

  lemma {:induction false} LinesInNull(rows: seq<Row>)
    requires forall i :: 0 <= i < |rows| ==> rows[i] == NullRow
    ensures LinesIn(rows) == []
  {
    if rows != [] {
      LinesInNull(rows[1..]);
    }
  }

  /** A loan without lines still has its NULL row, but no status holds of it:
      it is listed exactly when no status filter and no book filter is given
      (and its header passes the other filters). */
  lemma NoLinesNoStatus(q: LoanQuery, h: Header, lines: seq<Line>, persons: set<int>, staff: set<int>, today: int)
    requires LinesOf(lines, h.id) == []
    ensures forall st :: !Holds(st, NullSums, today, h.dueDate)
    ensures Listed(q, h, lines, persons, staff, today) <==>
      h.borrower in persons && h.staff in staff && RowPasses(q, h, NullRow) && q.statuses == []
    ensures RowPasses(q, h, NullRow) ==> q.books.None?
  {
    var survivors := Survivors(q, h, [NullRow]);
    assert [NullRow][1..] == [];
    assert Survivors(q, h, []) == [];
    assert survivors == (if RowPasses(q, h, NullRow) then [NullRow] else []) + Survivors(q, h, []);
    if RowPasses(q, h, NullRow) {
      assert survivors == [NullRow];
      assert LinesIn(survivors) == [];
      assert GroupSums(survivors) == NullSums;
    } else {
      assert survivors == [];
    }
  }

  lemma {:induction false} SurvivorsOfLines(q: LoanQuery, h: Header, ls: seq<Line>, bs: seq<int>)
    requires q.books == Some(bs) && ls != []
    requires (q.persons.None? || h.borrower in q.persons.value) &&
      OnOrAfter(Some(h.loanDate), q.loanFrom) && OnOrBefore(Some(h.loanDate), q.loanTo) &&
      OnOrAfter(h.returnDate, q.returnFrom) && OnOrBefore(h.returnDate, q.returnTo)
    ensures LinesIn(Survivors(q, h, Rows(ls))) == WithBooks(ls, bs)
    decreases |ls|
  {
    var rows := Rows(ls);
    assert rows[0] == LineRow(ls[0]);
    var here := if RowPasses(q, h, rows[0]) then [rows[0]] else [];
    assert Survivors(q, h, rows) == here + Survivors(q, h, rows[1..]);
    if |ls| > 1 {
      assert rows[1..] == Rows(ls[1..]);
      SurvivorsOfLines(q, h, ls[1..], bs);
    } else {
      assert rows[1..] == [];
    }
    LinesInAppend(here, Survivors(q, h, rows[1..]));
  }

  lemma {:induction false} LinesInAppend(a: seq<Row>, b: seq<Row>)
    ensures LinesIn(a + b) == LinesIn(a) + LinesIn(b)
    decreases |a|
  {
    if a != [] {
      assert (a + b)[1..] == a[1..] + b;
      LinesInAppend(a[1..], b);
    } else {
      assert a + b == b;
    }
  }

  /** The book filter sits in WHERE, so it narrows the lines the status sums run
      over: with a book list, a loan's sums are those of its lines for those books. */
  lemma BookFilterNarrowsSums(q: LoanQuery, h: Header, lines: seq<Line>, bs: seq<int>)
    requires q.books == Some(bs) && LinesOf(lines, h.id) != []
    requires (q.persons.None? || h.borrower in q.persons.value) &&
      OnOrAfter(Some(h.loanDate), q.loanFrom) && OnOrBefore(Some(h.loanDate), q.loanTo) &&
      OnOrAfter(h.returnDate, q.returnFrom) && OnOrBefore(h.returnDate, q.returnTo)
    ensures GroupSums(Survivors(q, h, Rows(LinesOf(lines, h.id)))) == SumsOf(WithBooks(LinesOf(lines, h.id), bs))
  {
    SurvivorsOfLines(q, h, LinesOf(lines, h.id), bs);
  }

  /** Without a book filter and with the header passing the other filters, a
      loan with lines is grouped over all its lines. */
  lemma AllLinesWithoutBookFilter(q: LoanQuery, h: Header, lines: seq<Line>)
    requires q.books.None? && LinesOf(lines, h.id) != []
    requires RowPasses(q, h, NullRow)
    ensures GroupSums(Survivors(q, h, Rows(LinesOf(lines, h.id)))) == SumsOf(LinesOf(lines, h.id))
  {
    var rows := Rows(LinesOf(lines, h.id));
    SurvivorsAll(q, h, rows);
    LinesInRows(LinesOf(lines, h.id));
  }

  lemma {:induction false} SurvivorsAll(q: LoanQuery, h: Header, rows: seq<Row>)
    requires q.books.None? && RowPasses(q, h, NullRow)
    ensures Survivors(q, h, rows) == rows
    decreases |rows|
  {
    if rows != [] {
      SurvivorsAll(q, h, rows[1..]);
      assert rows == [rows[0]] + rows[1..];
    }
  }

  /** No HAVING clause when no status is selected: every group passes. */
  lemma NoStatusAdmitsAll(situacao: Field, s: Sums, today: int, due: int)
    requires !FieldTruthy(situacao) ||
      (Str("1") !in AsList(situacao) && Str("0") !in AsList(situacao) && Str("2") !in AsList(situacao))
    ensures HavingHolds(SelectedStatuses(situacao), s, today, due)
  {
  }

  /** The selected HAVING tests are OR-ed: a group passes iff it satisfies one. */
  lemma HavingIsDisjunction(situacao: Field, s: Sums, today: int, due: int)
    requires SelectedStatuses(situacao) != []
    ensures HavingHolds(SelectedStatuses(situacao), s, today, due) <==>
      (FieldTruthy(situacao) && Str("1") in AsList(situacao) && Holds(Pendente, s, today, due)) ||
      (FieldTruthy(situacao) && Str("0") in AsList(situacao) && Holds(Atrasado, s, today, due)) ||
      (FieldTruthy(situacao) && Str("2") in AsList(situacao) && Holds(Devolvido, s, today, due))
  {
    var r := SelectedStatuses(situacao);
    if HavingHolds(r, s, today, due) {
      var i :| 0 <= i < |r| && Holds(r[i], s, today, due);
      assert r[i] in r;
    }
    if FieldTruthy(situacao) && Str("1") in AsList(situacao) && Holds(Pendente, s, today, due) {
      var i :| 0 <= i < |r| && r[i] == Pendente;
    }
    if FieldTruthy(situacao) && Str("0") in AsList(situacao) && Holds(Atrasado, s, today, due) {
      var i :| 0 <= i < |r| && r[i] == Atrasado;
    }
    if FieldTruthy(situacao) && Str("2") in AsList(situacao) && Holds(Devolvido, s, today, due) {
      var i :| 0 <= i < |r| && r[i] == Devolvido;
    }
  }

  // ------------------------------------------------------------------ the probe

  /** What `getExisteEmprestimoAberto` counts: lines with `lent <> returned`
      that join a header, of the given borrower when one is given. */
  predicate Counted(headers: map<int, Header>, l: Line, person: Option<int>)
  {
    l.lent != l.returned && l.loan in headers && (person.None? || headers[l.loan].borrower == person.value)
  }

  function OpenCount(headers: map<int, Header>, lines: seq<Line>, person: Option<int>): nat
  {
    if lines == [] then 0
    else (if Counted(headers, lines[0], person) then 1 else 0) + OpenCount(headers, lines[1..], person)
  }

  /** The probe's answer: true iff some counted line exists. */
  lemma {:induction false} OpenCountPositive(headers: map<int, Header>, lines: seq<Line>, person: Option<int>)
    ensures OpenCount(headers, lines, person) > 0 <==> exists i :: 0 <= i < |lines| && Counted(headers, lines[i], person)
    decreases |lines|
  {
    if lines != [] {
      OpenCountPositive(headers, lines[1..], person);
      if exists i :: 0 <= i < |lines[1..]| && Counted(headers, lines[1..][i], person) {
        var i :| 0 <= i < |lines[1..]| && Counted(headers, lines[1..][i], person);
        assert lines[i + 1] == lines[1..][i];
      }
      if exists i :: 0 <= i < |lines| && Counted(headers, lines[i], person) {
        var i :| 0 <= i < |lines| && Counted(headers, lines[i], person);
        if i > 0 { assert lines[1..][i - 1] == lines[i]; }
      }
    }
  }

  /** The probe tests each line, not the sums: the over-returned loan that reads
      Devolvido is still reported open. */
  lemma ProbeDisagreesWithDevolvido()
    ensures var h := map[1 := Header(1, 7, 3, 0, 10, None, None)];
      var ls := [Line(1, 10, 2, 3), Line(1, 11, 2, 1)];
      Holds(Devolvido, SumsOf(ls), 0, 10) && OpenCount(h, ls, None) > 0
  {
    var h := map[1 := Header(1, 7, 3, 0, 10, None, None)];
    var ls := [Line(1, 10, 2, 3), Line(1, 11, 2, 1)];
    DevolvidoWithOpenLine();
    assert Counted(h, ls[0], None);
  }
}
