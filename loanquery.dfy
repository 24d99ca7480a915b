/** The statement `getEmprestimo` sends: WHERE filters over borrowers, books
    and date bounds, then a HAVING clause over the selected loan statuses. */
module LoanQueryText {
  import opened Common
  import opened SqlText
  import opened Filters
  import opened LoanStatus

  /** The listing's base query, with its line breaks and indentation read as
      single spaces, in five parts: the selected columns, the aggregated book
      list, its image URL, its closing, and the joins. Each part is cut into
      short pieces so that its freedom from `$` is proved piece by piece. */
  const ListingColumns1: string := " SELECT EMP.*, PES.*, "
  const ListingColumns2: string := "EMP.OBSERVACAO AS OBSERVACAO, "
  const ListingColumns3: string := "CAST(SUM(EL.QUANTIDADEDEVOLVIDA) "
  const ListingColumns4: string := "AS INT) AS totaldevolvido, "
  const ListingColumns5: string := "CAST(SUM(EL.QUANTIDADEEMPRESTADA) "
  const ListingColumns6: string := "AS INT) AS totalemprestado, "
  const ListingColumns: string := ListingColumns1 + ListingColumns2 + ListingColumns3 + ListingColumns4 + ListingColumns5 + ListingColumns6
  const ListingBooks1: string := "COALESCE( JSON_AGG( DISTINCT "
  const ListingBooks2: string := "jsonb_build_object( "
  const ListingBooks3: string := "'codigolivro', L.codigolivro, "
  const ListingBooks4: string := "'titulo', L.titulo, "
  const ListingBooks5: string := "'quantidadeemprestada', "
  const ListingBooks6: string := "EL.quantidadeemprestada, "
  const ListingBooks7: string := "'quantidadedevolvida', "
  const ListingBooks8: string := "EL.quantidadedevolvida, "
  const ListingBooks: string := ListingBooks1 + ListingBooks2 + ListingBooks3 + ListingBooks4 + ListingBooks5 + ListingBooks6 + ListingBooks7 + ListingBooks8
  const ListingImage1: string := "'imagem', L.imagem, 'imagem_url', "
  const ListingImage2: string := "CASE WHEN L.imagem IS NOT NULL "
  const ListingImage3: string := "THEN 'https://ik.imagekit.io/"
  const ListingImage4: string := "bibliothek/LivrosImagens/' "
  const ListingImage5: string := "|| L.imagem || '.png' ELSE NULL END, "
  const ListingImage: string := ListingImage1 + ListingImage2 + ListingImage3 + ListingImage4 + ListingImage5
  const ListingBooksEnd1: string := "'codigoemprestimo', "
  const ListingBooksEnd2: string := "EMP.codigoemprestimo ) ) "
  const ListingBooksEnd3: string := "FILTER (WHERE L.codigolivro "
  const ListingBooksEnd4: string := "IS NOT NULL), '[]' ) AS livros "
  const ListingBooksEnd: string := ListingBooksEnd1 + ListingBooksEnd2 + ListingBooksEnd3 + ListingBooksEnd4
  const ListingJoins1: string := "FROM EMPRESTIMO EMP JOIN PESSOA PES ON "
  const ListingJoins2: string := "PES.CODIGOPESSOA = EMP.CODIGOPESSOA "
  const ListingJoins3: string := "JOIN FUNCIONARIO FUN ON "
  const ListingJoins4: string := "FUN.CODIGOFUNCIONARIO = "
  const ListingJoins5: string := "EMP.CODIGOFUNCIONARIO "
  const ListingJoins6: string := "LEFT JOIN EMPRESTIMO_LIVRO EL ON "
  const ListingJoins7: string := "EL.CODIGOEMPRESTIMO = "
  const ListingJoins8: string := "EMP.CODIGOEMPRESTIMO "
  const ListingJoins9: string := "LEFT JOIN LIVRO L ON "
  const ListingJoins10: string := "L.CODIGOLIVRO = EL.CODIGOLIVRO "
  const ListingJoins: string := ListingJoins1 + ListingJoins2 + ListingJoins3 + ListingJoins4 + ListingJoins5 + ListingJoins6 + ListingJoins7 + ListingJoins8 + ListingJoins9 + ListingJoins10
  const ListingSelect: string := ListingColumns + ListingBooks + ListingImage + ListingBooksEnd + ListingJoins

  lemma ListingColumns1Clean() ensures '$' !in ListingColumns1 { }
  lemma ListingColumns2Clean() ensures '$' !in ListingColumns2 { }
  lemma ListingColumns3Clean() ensures '$' !in ListingColumns3 { }
  lemma ListingColumns4Clean() ensures '$' !in ListingColumns4 { }
  lemma ListingColumns5Clean() ensures '$' !in ListingColumns5 { }
  lemma ListingColumns6Clean() ensures '$' !in ListingColumns6 { }
  lemma ListingColumnsClean() ensures '$' !in ListingColumns
  {
    ListingColumns1Clean();
    ListingColumns2Clean();
    ListingColumns3Clean();
    ListingColumns4Clean();
    ListingColumns5Clean();
    ListingColumns6Clean();
  }
  lemma ListingBooks1Clean() ensures '$' !in ListingBooks1 { }
  lemma ListingBooks2Clean() ensures '$' !in ListingBooks2 { }
  lemma ListingBooks3Clean() ensures '$' !in ListingBooks3 { }
  lemma ListingBooks4Clean() ensures '$' !in ListingBooks4 { }
  lemma ListingBooks5Clean() ensures '$' !in ListingBooks5 { }
  lemma ListingBooks6Clean() ensures '$' !in ListingBooks6 { }
  lemma ListingBooks7Clean() ensures '$' !in ListingBooks7 { }
  lemma ListingBooks8Clean() ensures '$' !in ListingBooks8 { }
  lemma ListingBooksClean() ensures '$' !in ListingBooks
  {
    ListingBooks1Clean();
    ListingBooks2Clean();
    ListingBooks3Clean();
    ListingBooks4Clean();
    ListingBooks5Clean();
    ListingBooks6Clean();
    ListingBooks7Clean();
    ListingBooks8Clean();
  }
  lemma ListingImage1Clean() ensures '$' !in ListingImage1 { }
  lemma ListingImage2Clean() ensures '$' !in ListingImage2 { }
  lemma ListingImage3Clean() ensures '$' !in ListingImage3 { }
  lemma ListingImage4Clean() ensures '$' !in ListingImage4 { }
  lemma ListingImage5Clean() ensures '$' !in ListingImage5 { }
  lemma ListingImageClean() ensures '$' !in ListingImage
  {
    ListingImage1Clean();
    ListingImage2Clean();
    ListingImage3Clean();
    ListingImage4Clean();
    ListingImage5Clean();
  }
  lemma ListingBooksEnd1Clean() ensures '$' !in ListingBooksEnd1 { }
  lemma ListingBooksEnd2Clean() ensures '$' !in ListingBooksEnd2 { }
  lemma ListingBooksEnd3Clean() ensures '$' !in ListingBooksEnd3 { }
  lemma ListingBooksEnd4Clean() ensures '$' !in ListingBooksEnd4 { }
  lemma ListingBooksEndClean() ensures '$' !in ListingBooksEnd
  {
    ListingBooksEnd1Clean();
    ListingBooksEnd2Clean();
    ListingBooksEnd3Clean();
    ListingBooksEnd4Clean();
  }
  lemma ListingJoins1Clean() ensures '$' !in ListingJoins1 { }
  lemma ListingJoins2Clean() ensures '$' !in ListingJoins2 { }
  lemma ListingJoins3Clean() ensures '$' !in ListingJoins3 { }
  lemma ListingJoins4Clean() ensures '$' !in ListingJoins4 { }
  lemma ListingJoins5Clean() ensures '$' !in ListingJoins5 { }
  lemma ListingJoins6Clean() ensures '$' !in ListingJoins6 { }
  lemma ListingJoins7Clean() ensures '$' !in ListingJoins7 { }
  lemma ListingJoins8Clean() ensures '$' !in ListingJoins8 { }
  lemma ListingJoins9Clean() ensures '$' !in ListingJoins9 { }
  lemma ListingJoins10Clean() ensures '$' !in ListingJoins10 { }
  lemma ListingJoinsClean() ensures '$' !in ListingJoins
  {
    ListingJoins1Clean();
    ListingJoins2Clean();
    ListingJoins3Clean();
    ListingJoins4Clean();
    ListingJoins5Clean();
    ListingJoins6Clean();
    ListingJoins7Clean();
    ListingJoins8Clean();
    ListingJoins9Clean();
    ListingJoins10Clean();
  }

  lemma ListingSelectClean() ensures '$' !in ListingSelect
  {
    ListingColumnsClean();
    ListingBooksClean();
    ListingImageClean();
    ListingBooksEndClean();
    ListingJoinsClean();
  }

  const ListingGroupBy1: string := " GROUP BY EMP.CODIGOEMPRESTIMO, "
  const ListingGroupBy2: string := "PES.CODIGOPESSOA, PES.NOME "
  const ListingGroupBy: string := ListingGroupBy1 + ListingGroupBy2
  lemma ListingGroupBy1Clean() ensures '$' !in ListingGroupBy1 { }
  lemma ListingGroupBy2Clean() ensures '$' !in ListingGroupBy2 { }
  lemma ListingGroupByClean() ensures '$' !in ListingGroupBy
  {
    ListingGroupBy1Clean();
    ListingGroupBy2Clean();
  }

  /** The HAVING test of each status, as SQL text. */
  /** The sums and the due date the status conditions compare. */
  const Returned := "SUM(EL.QUANTIDADEDEVOLVIDA)"
  const Lent := "SUM(EL.QUANTIDADEEMPRESTADA)"
  const DueDate := "MAX(EMP.DATADEVOLUCAOPREVISTA)"

  lemma ReturnedClean() ensures '$' !in Returned { }
  lemma LentClean() ensures '$' !in Lent { }
  lemma DueDateClean() ensures '$' !in DueDate { }

  function StatusSql(st: Status): string
  {
    match st
    case Pendente => Returned + " < " + Lent
    case Atrasado => Returned + " < " + Lent + " AND CURRENT_DATE > " + DueDate
    case Devolvido => Returned + " = " + Lent
  }

  lemma StatusSqlClean(st: Status) ensures '$' !in StatusSql(st)
  {
    ReturnedClean();
    LentClean();
    DueDateClean();
    assert '$' !in " < " && '$' !in " = " && '$' !in " AND CURRENT_DATE > ";
  }

  function StatusSqls(sts: seq<Status>): (r: seq<string>)
    ensures |r| == |sts| && forall i :: 0 <= i < |sts| ==> r[i] == StatusSql(sts[i])
  {
    seq(|sts|, i requires 0 <= i < |sts| => StatusSql(sts[i]))
  }

  /** `havingConditions`: one parenthesised OR of the selected tests, or nothing. */
  function HavingConditions(sts: seq<Status>): seq<string>
  {
    if sts == [] then [] else ["(" + Join(" OR ", StatusSqls(sts)) + ")"]
  }

  /** `if (havingConditions.length > 0) query += ` HAVING ${...join(' OR ')}`` */
  function HavingClause(having: seq<string>): string
  {
    if |having| > 0 then " HAVING " + Join(" OR ", having) else ""
  }

  lemma {:induction false} JoinClean(sep: string, parts: seq<string>)
    requires '$' !in sep && forall i :: 0 <= i < |parts| ==> '$' !in parts[i]
    ensures '$' !in Join(sep, parts)
    decreases |parts|
  {
    if |parts| > 1 {
      JoinClean(sep, parts[1..]);
    }
  }

  /** The HAVING clause holds no placeholder: the status filter has no parameters. */
  lemma HavingClean(sts: seq<Status>)
    ensures '$' !in HavingClause(HavingConditions(sts))
  {
    if sts != [] {
      forall i | 0 <= i < |sts| ensures '$' !in StatusSqls(sts)[i] {
        StatusSqlClean(sts[i]);
      }
      JoinClean(" OR ", StatusSqls(sts));
      JoinClean(" OR ", HavingConditions(sts));
    }
  }

  /** The columns and comparisons of the listing filters. */
  const PersonColumn := "EMP.CODIGOPESSOA"
  const BookColumn := "EL.CODIGOLIVRO"
  const LentFrom := "EMP.DATAEMPRESTIMO::date >="
  const LentUntil := "EMP.DATAEMPRESTIMO::date <="
  const ReturnedFrom := "EMP.DATADEVOLUCAO::date >="
  const ReturnedUntil := "EMP.DATADEVOLUCAO::date <="

  lemma IdColumnsClean() ensures CleanText(PersonColumn) && CleanText(BookColumn) { }
  lemma LentFromClean() ensures CleanText(LentFrom) { }
  lemma LentUntilClean() ensures CleanText(LentUntil) { }
  lemma ReturnedFromClean() ensures CleanText(ReturnedFrom) { }
  lemma ReturnedUntilClean() ensures CleanText(ReturnedUntil) { }

  /** The listing filters, in the order the controller applies them. A date bound
      is pushed when its string is non-empty (truthy). */
  function ListingFilters(codigopessoa: Field, livro: Field, datainiciocriacao: Option<string>,
                          datafimcriacao: Option<string>, datainiciodevolucao: Option<string>,
                          datafimdevolucao: Option<string>): (fs: seq<Filter>)
    ensures |fs| == 6 && CleanFilters(fs)
  {
    IdColumnsClean();
    LentFromClean();
    LentUntilClean();
    ReturnedFromClean();
    ReturnedUntilClean();
    [ InFilter(PersonColumn, Selected(codigopessoa)),
      InFilter(BookColumn, Selected(livro)),
      CompareFilter(LentFrom, SelectedText(datainiciocriacao)),
      CompareFilter(LentUntil, SelectedText(datafimcriacao)),
      CompareFilter(ReturnedFrom, SelectedText(datainiciodevolucao)),
      CompareFilter(ReturnedUntil, SelectedText(datafimdevolucao)) ]
  }

  /** Specification of the listing statement. */
  function ListingStatement(codigopessoa: Field, livro: Field, datainiciocriacao: Option<string>,
                            datafimcriacao: Option<string>, datainiciodevolucao: Option<string>,
                            datafimdevolucao: Option<string>, situacao: Field): Statement
  {
    var fs := ListingFilters(codigopessoa, livro, datainiciocriacao, datafimcriacao, datainiciodevolucao, datafimdevolucao);
    Statement(ListingSelect + WhereClause(FilterConditions(fs, 1)) +
              (ListingGroupBy + HavingClause(HavingConditions(SelectedStatuses(situacao))) + ";"),
              FilterValues(fs))
  }

  function DateValue(d: Option<string>): seq<Value>
  {
    if d.Some? && d.value != [] then [Str(d.value)] else []
  }

  lemma Values6(a: Filter, b: Filter, c: Filter, d: Filter, e: Filter, f: Filter)
    ensures FilterValues([a, b, c, d, e, f]) ==
      FilterVals(a) + FilterVals(b) + FilterVals(c) + FilterVals(d) + FilterVals(e) + FilterVals(f)
  {
    assert [a, b, c, d, e, f] == [a, b, c] + [d, e, f];
    ValuesAppend([a, b, c], [d, e, f]);
    Values3(a, b, c);
    Values3(d, e, f);
  }

  /** The values of the listing filters, block by block. */
  function ListingValues(codigopessoa: Field, livro: Field, datainiciocriacao: Option<string>,
                         datafimcriacao: Option<string>, datainiciodevolucao: Option<string>,
                         datafimdevolucao: Option<string>): seq<Value>
  {
    Pushed(codigopessoa) + Pushed(livro) + DateValue(datainiciocriacao) + DateValue(datafimcriacao) +
    DateValue(datainiciodevolucao) + DateValue(datafimdevolucao)
  }

  /** Borrowers, then books, then the four date bounds, each as sent; a scalar
      borrower or book becomes a one-element list. */
  lemma ListingParams(codigopessoa: Field, livro: Field, datainiciocriacao: Option<string>,
                      datafimcriacao: Option<string>, datainiciodevolucao: Option<string>,
                      datafimdevolucao: Option<string>, situacao: Field)
    ensures ListingStatement(codigopessoa, livro, datainiciocriacao, datafimcriacao, datainiciodevolucao, datafimdevolucao, situacao).params ==
      ListingValues(codigopessoa, livro, datainiciocriacao, datafimcriacao, datainiciodevolucao, datafimdevolucao)
  {
    var fs := ListingFilters(codigopessoa, livro, datainiciocriacao, datafimcriacao, datainiciodevolucao, datafimdevolucao);
    Values6(fs[0], fs[1], fs[2], fs[3], fs[4], fs[5]);
    assert fs == [fs[0], fs[1], fs[2], fs[3], fs[4], fs[5]];
  }

  /** The listing text holds exactly the placeholders $1..$n for its n values,
      in order; the HAVING clause adds none. */
  lemma ListingNumbered(codigopessoa: Field, livro: Field, datainiciocriacao: Option<string>,
                        datafimcriacao: Option<string>, datainiciodevolucao: Option<string>,
                        datafimdevolucao: Option<string>, situacao: Field)
    ensures var st := ListingStatement(codigopessoa, livro, datainiciocriacao, datafimcriacao, datainiciodevolucao, datafimdevolucao, situacao);
      Scan(st.text) == Range(1, |st.params|)
  {
    var fs := ListingFilters(codigopessoa, livro, datainiciocriacao, datafimcriacao, datainiciodevolucao, datafimdevolucao);
    var tail := ListingGroupBy + HavingClause(HavingConditions(SelectedStatuses(situacao))) + ";";
    ListingSelectClean();
    ListingGroupByClean();
    HavingClean(SelectedStatuses(situacao));
    assert '$' !in tail;
    assert StartsClean(tail);
    ScanListStatement(ListingSelect, fs, tail);
  }

  /** The WHERE filter blocks of `getEmprestimo`, run in order. */
  method ListingConditions(codigopessoa: Field, livro: Field, datainiciocriacao: Option<string>,
                           datafimcriacao: Option<string>, datainiciodevolucao: Option<string>,
                           datafimdevolucao: Option<string>)
    returns (whereConditions: seq<string>, data: seq<Value>)
    ensures var fs := ListingFilters(codigopessoa, livro, datainiciocriacao, datafimcriacao, datainiciodevolucao, datafimdevolucao);
      whereConditions == FilterConditions(fs, 1) && data == FilterValues(fs)
  {
    var fs := ListingFilters(codigopessoa, livro, datainiciocriacao, datafimcriacao, datainiciodevolucao, datafimdevolucao);
    whereConditions, data := [], [];
    var paramIndex: nat := 1;
    BuiltStart(fs);
    whereConditions, data, paramIndex := Step(fs, 0, whereConditions, data, paramIndex);
    whereConditions, data, paramIndex := Step(fs, 1, whereConditions, data, paramIndex);
    whereConditions, data, paramIndex := Step(fs, 2, whereConditions, data, paramIndex);
    whereConditions, data, paramIndex := Step(fs, 3, whereConditions, data, paramIndex);
    whereConditions, data, paramIndex := Step(fs, 4, whereConditions, data, paramIndex);
    whereConditions, data, paramIndex := Step(fs, 5, whereConditions, data, paramIndex);
    BuiltAll(fs, whereConditions, data, paramIndex);
  }

  /** Pushing one status's test extends the tests of the selected statuses by that status. */
  lemma StatusSqlsSnoc(sts: seq<Status>, st: Status)
    ensures StatusSqls(sts + [st]) == StatusSqls(sts) + [StatusSql(st)]
  {
    var l, r := StatusSqls(sts + [st]), StatusSqls(sts) + [StatusSql(st)];
    assert |l| == |r|;
    forall i | 0 <= i < |l| ensures l[i] == r[i] {
      if i < |sts| { assert (sts + [st])[i] == sts[i]; }
    }
  }

  /** The status block of `getEmprestimo`: the tests of the selected statuses in
      the order '1', '0', '2', OR-ed inside one pair of parentheses. */
  method ListingHaving(situacao: Field) returns (havingConditions: seq<string>)
    ensures havingConditions == HavingConditions(SelectedStatuses(situacao))
  {
    havingConditions := [];
    if FieldTruthy(situacao) {
      var situacoes := AsList(situacao);
      var statusConditions: seq<string> := [];
      ghost var selected: seq<Status> := [];
      assert statusConditions == StatusSqls(selected);
      if Str("1") in situacoes {
        StatusSqlsSnoc(selected, Pendente);
        statusConditions := statusConditions + [StatusSql(Pendente)];
        selected := selected + [Pendente];
      }
      if Str("0") in situacoes {
        StatusSqlsSnoc(selected, Atrasado);
        statusConditions := statusConditions + [StatusSql(Atrasado)];
        selected := selected + [Atrasado];
      }
      if Str("2") in situacoes {
        StatusSqlsSnoc(selected, Devolvido);
        statusConditions := statusConditions + [StatusSql(Devolvido)];
        selected := selected + [Devolvido];
      }
      assert selected == SelectedStatuses(situacao);
      if |statusConditions| > 0 {
        havingConditions := havingConditions + ["(" + Join(" OR ", statusConditions) + ")"];
      }
    }
  }

  /** The four ways the controller appends WHERE and HAVING give one text. */
  lemma ListingText(head: string, where: seq<string>, group: string, having: seq<string>)
    ensures var q1 := if |where| > 0 then head + " WHERE " + Join(" AND ", where) else head;
      var q2 := q1 + group;
      var q3 := if |having| > 0 then q2 + " HAVING " + Join(" OR ", having) else q2;
      q3 + ";" == head + WhereClause(where) + (group + HavingClause(having) + ";")
  {
    var w := WhereClause(where);
    var h := HavingClause(having);
    var q1 := if |where| > 0 then head + " WHERE " + Join(" AND ", where) else head;
    assert q1 == head + w by {
      if |where| > 0 { Assoc(head, " WHERE ", Join(" AND ", where)); }
    }
    var q2 := q1 + group;
    var q3 := if |having| > 0 then q2 + " HAVING " + Join(" OR ", having) else q2;
    assert q3 == q2 + h by {
      if |having| > 0 { Assoc(q2, " HAVING ", Join(" OR ", having)); }
    }
    Assoc(head, w, group);
    Assoc(head + w + group, h, ";");
    Assoc(head + w, group, h);
    Assoc(head + w, group + h, ";");
  }

  /** `getEmprestimo`'s statement, built as the controller builds it. */
  method ListingQuery(codigopessoa: Field, livro: Field, datainiciocriacao: Option<string>,
                      datafimcriacao: Option<string>, datainiciodevolucao: Option<string>,
                      datafimdevolucao: Option<string>, situacao: Field) returns (stmt: Statement)
    ensures stmt == ListingStatement(codigopessoa, livro, datainiciocriacao, datafimcriacao, datainiciodevolucao, datafimdevolucao, situacao)
  {
    var whereConditions, data := ListingConditions(codigopessoa, livro, datainiciocriacao, datafimcriacao, datainiciodevolucao, datafimdevolucao);
    var havingConditions := ListingHaving(situacao);
    var query := ListingSelect;
    if |whereConditions| > 0 {
      query := query + " WHERE " + Join(" AND ", whereConditions);
    }
    query := query + ListingGroupBy;
    if |havingConditions| > 0 {
      query := query + " HAVING " + Join(" OR ", havingConditions);
    }
    query := query + ";";
    ListingText(ListingSelect, whereConditions, ListingGroupBy, havingConditions);
    stmt := Statement(query, data);
  }

  // ------------------------------------------------------------------ the probe

  const ProbeSelect1: string := " SELECT COUNT(*) FROM EMPRESTIMO E "
  const ProbeSelect2: string := "JOIN EMPRESTIMO_LIVRO EL ON "
  const ProbeSelect3: string := "E.CODIGOEMPRESTIMO = EL.CODIGOEMPRESTIMO "
  const ProbeSelect4: string := "WHERE EL.QUANTIDADEEMPRESTADA <> "
  const ProbeSelect5: string := "EL.QUANTIDADEDEVOLVIDA "
  const ProbeSelect: string := ProbeSelect1 + ProbeSelect2 + ProbeSelect3 + ProbeSelect4 + ProbeSelect5
  lemma ProbeSelect1Clean() ensures '$' !in ProbeSelect1 { }
  lemma ProbeSelect2Clean() ensures '$' !in ProbeSelect2 { }
  lemma ProbeSelect3Clean() ensures '$' !in ProbeSelect3 { }
  lemma ProbeSelect4Clean() ensures '$' !in ProbeSelect4 { }
  lemma ProbeSelect5Clean() ensures '$' !in ProbeSelect5 { }
  lemma ProbeSelectClean() ensures '$' !in ProbeSelect
  {
    ProbeSelect1Clean();
    ProbeSelect2Clean();
    ProbeSelect3Clean();
    ProbeSelect4Clean();
    ProbeSelect5Clean();
  }

  /** The probe's statement: the borrower clause and its one parameter only when
      `codigopessoa` is truthy. */
  function ProbeStatement(codigopessoa: Option<Value>): (st: Statement)
    ensures codigopessoa.Some? && Truthy(codigopessoa.value) ==> st.params == [codigopessoa.value]
    ensures !(codigopessoa.Some? && Truthy(codigopessoa.value)) ==> st.params == [] && st.text == ProbeSelect
    ensures Scan(st.text) == Range(1, |st.params|)
  {
    ProbeSelectClean();
    ScanNoDollar(ProbeSelect);
    if codigopessoa.Some? && Truthy(codigopessoa.value) then
      var clause := " AND E.CODIGOPESSOA = ";
      ScanNoDollar(ProbeSelect + clause);
      ScanPlaceholder(1);
      ScanAppend(ProbeSelect + clause, Placeholder(1));
      assert ProbeSelect + clause + Placeholder(1) == ProbeSelect + (clause + Placeholder(1));
      Statement(ProbeSelect + (clause + Placeholder(1)), [codigopessoa.value])
    else
      Statement(ProbeSelect, [])
  }
}
