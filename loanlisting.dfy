/** Which loans `getEmprestimo` lists: the request read as a `LoanQuery`
    under Postgres's casts of the bound values, tied to the statement the
    controller sends, and the listing `LoanStatus.Listing` computes for it. */
module LoanListing {
  import opened Common
  import opened SqlText
  import opened Filters
  import opened LoanStatus
  import opened LoanQueryText

  /** Postgres's reading of bound values under one cast: every value must be
      read, or the statement fails. */
  function {:induction false} ReadAll(vs: seq<Value>, read: Value -> Option<int>): (r: Option<seq<int>>)
    ensures r.Some? <==> forall i :: 0 <= i < |vs| ==> read(vs[i]).Some?
    ensures r.Some? ==> |r.value| == |vs| && forall i :: 0 <= i < |vs| ==> read(vs[i]) == Some(r.value[i])
    decreases |vs|
  {
    if vs == [] then Some([])
    else
      var rest := ReadAll(vs[1..], read);
      assert forall i :: 1 <= i < |vs| ==> vs[1..][i - 1] == vs[i];
      if read(vs[0]).Some? && rest.Some? then Some([read(vs[0]).value] + rest.value) else None
  }

  /** Reading a concatenation reads each part. */
  lemma {:induction false} ReadAllAppend(a: seq<Value>, b: seq<Value>, read: Value -> Option<int>)
    ensures ReadAll(a + b, read) ==
      (if ReadAll(a, read).Some? && ReadAll(b, read).Some? then Some(ReadAll(a, read).value + ReadAll(b, read).value) else None)
  {
    var l := ReadAll(a + b, read);
    if ReadAll(a, read).Some? && ReadAll(b, read).Some? {
      var r := ReadAll(a, read).value + ReadAll(b, read).value;
      assert forall i :: 0 <= i < |a + b| ==> read((a + b)[i]).Some? by {
        forall i | 0 <= i < |a + b| ensures read((a + b)[i]).Some? {
          if i < |a| { assert (a + b)[i] == a[i]; } else { assert (a + b)[i] == b[i - |a|]; }
        }
      }
      assert l.Some? && |l.value| == |r|;
      forall i | 0 <= i < |r| ensures l.value[i] == r[i] {
        if i < |a| { assert (a + b)[i] == a[i]; } else { assert (a + b)[i] == b[i - |a|]; }
      }
      assert l.value == r;
    } else if ReadAll(a, read).None? {
      var i :| 0 <= i < |a| && read(a[i]).None?;
      assert (a + b)[i] == a[i];
    } else {
      var i :| 0 <= i < |b| && read(b[i]).None?;
      assert (a + b)[|a| + i] == b[i];
    }
  }

  /** The `::date` reading of a bound parameter; `day` is Postgres's date
      parser, giving the day number of a text, or None when it is no date. */
  function DayReader(day: string -> Option<int>): Value -> Option<int>
  {
    (v: Value) => if v.Str? then day(v.s) else None
  }

  /** One list filter as Postgres applies it: no filter when the field is falsy;
      a failure when a value is no integer, and when the list is empty, since
      `IN ()` is a syntax error; otherwise the cast ids. */
  function IdFilter(f: Field): (r: Option<Option<seq<int>>>)
    ensures r == Some(None) <==> !FieldTruthy(f)
    ensures r.None? <==> FieldTruthy(f) && (AsList(f) == [] || ReadAll(AsList(f), PgInt).None?)
    ensures r.Some? && r.value.Some? ==> FieldTruthy(f) && ReadAll(AsList(f), PgInt) == r.value && r.value.value != []
  {
    if !FieldTruthy(f) then Some(None)
    else if AsList(f) == [] then None
    else match ReadAll(AsList(f), PgInt)
      case Some(ns) => Some(Some(ns))
      case None => None
  }

  /** One date bound: none for an absent or empty text, a failure when the text is no date. */
  function DateBound(d: Option<string>, day: string -> Option<int>): (r: Option<Option<int>>)
    ensures r == Some(None) <==> d.None? || d.value == []
    ensures r.None? <==> d.Some? && d.value != [] && day(d.value).None?
    ensures r.Some? && r.value.Some? ==> d.Some? && d.value != [] && day(d.value) == r.value
  {
    if d.None? || d.value == [] then Some(None)
    else if day(d.value).Some? then Some(day(d.value)) else None
  }

  /** The filters a `getEmprestimo` request selects, once Postgres has cast its
      parameters; None when a cast fails, which makes the query fail. */
  function QueryOf(codigopessoa: Field, livro: Field, datainiciocriacao: Option<string>,
                   datafimcriacao: Option<string>, datainiciodevolucao: Option<string>,
                   datafimdevolucao: Option<string>, situacao: Field, day: string -> Option<int>): (r: Option<LoanQuery>)
    ensures r.Some? <==>
      IdFilter(codigopessoa).Some? && IdFilter(livro).Some? &&
      DateBound(datainiciocriacao, day).Some? && DateBound(datafimcriacao, day).Some? &&
      DateBound(datainiciodevolucao, day).Some? && DateBound(datafimdevolucao, day).Some?
    ensures r.Some? ==> r.value.statuses == SelectedStatuses(situacao)
    ensures r.Some? ==> (r.value.persons.Some? <==> FieldTruthy(codigopessoa)) && (r.value.books.Some? <==> FieldTruthy(livro))
    ensures r.Some? ==> (r.value.loanFrom.Some? <==> SelectedText(datainiciocriacao).Some?) &&
                        (r.value.loanTo.Some? <==> SelectedText(datafimcriacao).Some?) &&
                        (r.value.returnFrom.Some? <==> SelectedText(datainiciodevolucao).Some?) &&
                        (r.value.returnTo.Some? <==> SelectedText(datafimdevolucao).Some?)
  {
    var ps, bs := IdFilter(codigopessoa), IdFilter(livro);
    var lf, lt := DateBound(datainiciocriacao, day), DateBound(datafimcriacao, day);
    var rf, rt := DateBound(datainiciodevolucao, day), DateBound(datafimdevolucao, day);
    if ps.Some? && bs.Some? && lf.Some? && lt.Some? && rf.Some? && rt.Some? then
      Some(LoanQuery(ps.value, bs.value, lf.value, lt.value, rf.value, rt.value, SelectedStatuses(situacao)))
    else None
  }

  function IdsOf(ids: Option<seq<int>>): seq<int> { if ids.Some? then ids.value else [] }

  function OptList(b: Option<int>): seq<int> { if b.Some? then [b.value] else [] }

  /** The date bounds a query applies, in the order the controller pushes them. */
  function Bounds(q: LoanQuery): seq<int>
  {
    OptList(q.loanFrom) + OptList(q.loanTo) + OptList(q.returnFrom) + OptList(q.returnTo)
  }

  lemma DateValueReads(d: Option<string>, day: string -> Option<int>)
    requires DateBound(d, day).Some?
    ensures ReadAll(DateValue(d), DayReader(day)) == Some(OptList(DateBound(d, day).value))
  {
    if d.Some? && d.value != [] {
      var r := ReadAll(DateValue(d), DayReader(day));
      assert DayReader(day)(DateValue(d)[0]) == day(d.value);
      assert r.Some? && |r.value| == 1 && r.value[0] == day(d.value).value;
      assert r.value == [day(d.value).value];
    }
  }

  /** A list filter's values read back as the ids it filters on. */
  lemma IdsRead(f: Field)
    requires IdFilter(f).Some?
    ensures ReadAll(Pushed(f), PgInt) == Some(IdsOf(IdFilter(f).value))
  {
  }

  /** The four date values read back as the bounds, in order. */
  lemma BoundsRead(d1: Option<string>, d2: Option<string>, d3: Option<string>, d4: Option<string>,
                   day: string -> Option<int>)
    requires DateBound(d1, day).Some? && DateBound(d2, day).Some? && DateBound(d3, day).Some? && DateBound(d4, day).Some?
    ensures ReadAll(DateValue(d1) + DateValue(d2) + DateValue(d3) + DateValue(d4), DayReader(day)) ==
      Some(OptList(DateBound(d1, day).value) + OptList(DateBound(d2, day).value) +
           OptList(DateBound(d3, day).value) + OptList(DateBound(d4, day).value))
  {
    DateValueReads(d1, day);
    DateValueReads(d2, day);
    DateValueReads(d3, day);
    DateValueReads(d4, day);
    ReadAllAppend(DateValue(d1), DateValue(d2), DayReader(day));
    ReadAllAppend(DateValue(d1) + DateValue(d2), DateValue(d3), DayReader(day));
    ReadAllAppend(DateValue(d1) + DateValue(d2) + DateValue(d3), DateValue(d4), DayReader(day));
  }

  lemma Regroup(a: seq<Value>, b: seq<Value>, c: seq<Value>, d: seq<Value>, e: seq<Value>, f: seq<Value>)
    ensures a + b + c + d + e + f == a + b + (c + d + e + f)
  {
  }

  /** Slicing three consecutive blocks of values gives back each block. */
  lemma Blocks(a: seq<Value>, b: seq<Value>, c: seq<Value>)
    ensures |a| + |b| <= |a + b + c|
    ensures (a + b + c)[..|a|] == a && (a + b + c)[|a|..|a| + |b|] == b && (a + b + c)[|a| + |b|..] == c
  {
  }

  /** The fields of a request's query are its filters' readings. */
  lemma QueryFields(codigopessoa: Field, livro: Field, datainiciocriacao: Option<string>,
                    datafimcriacao: Option<string>, datainiciodevolucao: Option<string>,
                    datafimdevolucao: Option<string>, situacao: Field, day: string -> Option<int>)
    requires QueryOf(codigopessoa, livro, datainiciocriacao, datafimcriacao, datainiciodevolucao, datafimdevolucao, situacao, day).Some?
    ensures var q := QueryOf(codigopessoa, livro, datainiciocriacao, datafimcriacao, datainiciodevolucao, datafimdevolucao, situacao, day).value;
      q.persons == IdFilter(codigopessoa).value && q.books == IdFilter(livro).value &&
      Bounds(q) == OptList(DateBound(datainiciocriacao, day).value) + OptList(DateBound(datafimcriacao, day).value) +
                   OptList(DateBound(datainiciodevolucao, day).value) + OptList(DateBound(datafimdevolucao, day).value)
  {
  }

  /** The listing statement binds exactly the values its query filters on: read
      under Postgres's casts, the borrower values are the query's borrowers, the
      book values its books, and the remaining values its date bounds, in order
      (`ListingParams` makes these the statement's parameters). */
  lemma ListingReadsAsQuery(codigopessoa: Field, livro: Field, datainiciocriacao: Option<string>,
                            datafimcriacao: Option<string>, datainiciodevolucao: Option<string>,
                            datafimdevolucao: Option<string>, situacao: Field, day: string -> Option<int>)
    requires QueryOf(codigopessoa, livro, datainiciocriacao, datafimcriacao, datainiciodevolucao, datafimdevolucao, situacao, day).Some?
    ensures var vs := ListingValues(codigopessoa, livro, datainiciocriacao, datafimcriacao, datainiciodevolucao, datafimdevolucao);
      var q := QueryOf(codigopessoa, livro, datainiciocriacao, datafimcriacao, datainiciodevolucao, datafimdevolucao, situacao, day).value;
      var k, m := |Pushed(codigopessoa)|, |Pushed(livro)|;
      k + m <= |vs| &&
      ReadAll(vs[..k], PgInt) == Some(IdsOf(q.persons)) &&
      ReadAll(vs[k..k + m], PgInt) == Some(IdsOf(q.books)) &&
      ReadAll(vs[k + m..], DayReader(day)) == Some(Bounds(q))
  {
    QueryFields(codigopessoa, livro, datainiciocriacao, datafimcriacao, datainiciodevolucao, datafimdevolucao, situacao, day);
    var ds := DateValue(datainiciocriacao) + DateValue(datafimcriacao) + DateValue(datainiciodevolucao) + DateValue(datafimdevolucao);
    Regroup(Pushed(codigopessoa), Pushed(livro), DateValue(datainiciocriacao), DateValue(datafimcriacao),
            DateValue(datainiciodevolucao), DateValue(datafimdevolucao));
    Blocks(Pushed(codigopessoa), Pushed(livro), ds);
    IdsRead(codigopessoa);
    IdsRead(livro);
    BoundsRead(datainiciocriacao, datafimcriacao, datainiciodevolucao, datafimdevolucao, day);
  }

  /** `getEmprestimo`: the token gate (401, nothing sent), then the statement;
      a parameter Postgres cannot cast, or any other failure of the query
      (`queryFails`), is caught and answered 500. On success the reply lists
      the loans `Listing` selects for the request's query; `today` is
      CURRENT_DATE and `day` Postgres's date parser. */
  method GetEmprestimo(token: Option<string>, verified: Option<Claims>, codigopessoa: Field, livro: Field,
                       datainiciocriacao: Option<string>, datafimcriacao: Option<string>,
                       datainiciodevolucao: Option<string>, datafimdevolucao: Option<string>,
                       situacao: Field, queryFails: bool,
                       headers: map<int, Header>, lines: seq<Line>, persons: set<int>, staff: set<int>,
                       today: int, day: string -> Option<int>)
    returns (code: int, stmt: Option<Statement>, listed: Option<set<int>>)
    ensures TokenGate(token, verified).Some? ==> code == UNAUTHORIZED && stmt.None? && listed.None?
    ensures TokenGate(token, verified).None? ==>
      stmt == Some(ListingStatement(codigopessoa, livro, datainiciocriacao, datafimcriacao, datainiciodevolucao, datafimdevolucao, situacao))
    ensures var q := QueryOf(codigopessoa, livro, datainiciocriacao, datafimcriacao, datainiciodevolucao, datafimdevolucao, situacao, day);
      code == OK <==> TokenGate(token, verified).None? && q.Some? && !queryFails
    ensures TokenGate(token, verified).None? && code != OK ==> code == SERVER_ERROR && listed.None?
    ensures var q := QueryOf(codigopessoa, livro, datainiciocriacao, datafimcriacao, datainiciodevolucao, datafimdevolucao, situacao, day);
      code == OK ==> listed == Some(Listing(q.value, headers, lines, persons, staff, today))
  {
    var gate := TokenGate(token, verified);
    if gate.Some? {
      return gate.value, None, None;
    }
    var s := ListingQuery(codigopessoa, livro, datainiciocriacao, datafimcriacao, datainiciodevolucao, datafimdevolucao, situacao);
    stmt := Some(s);
    var q := QueryOf(codigopessoa, livro, datainiciocriacao, datafimcriacao, datainiciodevolucao, datafimdevolucao, situacao, day);
    if q.None? || queryFails {
      return SERVER_ERROR, stmt, None;
    }
    code, listed := OK, Some(Listing(q.value, headers, lines, persons, staff, today));
  }
}
