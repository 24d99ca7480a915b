/** Filter lists as the list endpoints push them: conditions and their values,
    with a running `paramIndex` that numbers the placeholders. */
module Filters {
  import opened Common
  import opened SqlText

  /** A parameterised SQL statement: its text and the value array sent with it. */
  datatype Statement = Statement(text: string, params: seq<Value>)

  /** One optional filter of a list endpoint. `InFilter` is `<column> IN ($k,...)`
      over a list of values; `CompareFilter` is `<lhs> $k` over one value. */
  datatype Filter =
    | InFilter(column: string, items: Option<seq<Value>>)
    | CompareFilter(lhs: string, item: Option<Value>)

  /** Text that may sit in SQL next to placeholders without being read as one. */
  predicate CleanText(s: string) { '$' !in s && s != [] && !IsDigit(s[0]) }

  predicate CleanFilter(f: Filter)
  {
    match f
    case InFilter(c, _) => CleanText(c)
    case CompareFilter(l, _) => CleanText(l)
  }

  predicate CleanFilters(fs: seq<Filter>)
  {
    forall i :: 0 <= i < |fs| ==> CleanFilter(fs[i])
  }

  /** The values a selected list filter pushes: `if (x)` then `Array.isArray(x) ? x : [x]`. */
  function Selected(f: Field): (r: Option<seq<Value>>)
    ensures r.Some? <==> FieldTruthy(f)
    ensures r.Some? ==> r.value == AsList(f)
  {
    if FieldTruthy(f) then Some(AsList(f)) else None
  }

  /** The same, with each value passed through `Number` (`situacoes.map(Number)`). */
  function SelectedNumbers(f: Field): (r: Option<seq<Value>>)
    ensures r.Some? <==> FieldTruthy(f)
    ensures r.Some? ==> r.value == NumbersOf(AsList(f))
  {
    if FieldTruthy(f) then Some(NumbersOf(AsList(f))) else None
  }

  /** A scalar filter on a string (a date bound): `if (x)` in JavaScript. */
  function SelectedText(s: Option<string>): (r: Option<Value>)
    ensures r.Some? <==> s.Some? && s.value != []
  {
    if s.Some? && s.value != [] then Some(Str(s.value)) else None
  }

  /** The values one filter pushes. */
  function FilterVals(f: Filter): seq<Value>
  {
    match f
    case InFilter(_, items) => if items.Some? then items.value else []
    case CompareFilter(_, item) => if item.Some? then [item.value] else []
  }

  /** The condition one filter pushes when its first placeholder is `$start`. */
  function FilterCond(f: Filter, start: nat): seq<string>
  {
    match f
    case InFilter(c, items) => if items.Some? then [InList(c, start, |items.value|)] else []
    case CompareFilter(l, item) => if item.Some? then [l + " " + Placeholder(start)] else []
  }

  /** Specification of the values array after the filters have run, in order. */
  function FilterValues(fs: seq<Filter>): seq<Value>
  {
    if fs == [] then [] else FilterVals(fs[0]) + FilterValues(fs[1..])
  }

  /** Specification of the conditions array after the filters have run, the
      first placeholder being `$start`. */
  function FilterConditions(fs: seq<Filter>, start: nat): seq<string>
  {
    if fs == [] then []
    else FilterCond(fs[0], start) + FilterConditions(fs[1..], start + |FilterVals(fs[0])|)
  }

  lemma FiltersCons(f: Filter, fs: seq<Filter>, start: nat)
    ensures FilterValues([f] + fs) == FilterVals(f) + FilterValues(fs)
    ensures FilterConditions([f] + fs, start) == FilterCond(f, start) + FilterConditions(fs, start + |FilterVals(f)|)
  {
    assert ([f] + fs)[0] == f;
    assert ([f] + fs)[1..] == fs;
  }

  function Scans(conds: seq<string>): seq<seq<nat>>
  {
    seq(|conds|, i requires 0 <= i < |conds| => Scan(conds[i]))
  }

  lemma FlattenCons(x: seq<nat>, xss: seq<seq<nat>>)
    ensures Flatten([x] + xss) == x + Flatten(xss)
  {
    assert ([x] + xss)[1..] == xss;
  }

  lemma ScansAppend(xs: seq<string>, ys: seq<string>)
    ensures Scans(xs + ys) == Scans(xs) + Scans(ys)
  {
  }

  lemma {:induction false} FlattenConcat(xss: seq<seq<nat>>, yss: seq<seq<nat>>)
    ensures Flatten(xss + yss) == Flatten(xss) + Flatten(yss)
    decreases |xss|
  {
    if xss == [] {
      assert xss + yss == yss;
    } else {
      assert (xss + yss)[1..] == xss[1..] + yss;
      FlattenConcat(xss[1..], yss);
    }
  }

  lemma CleanFiltersTail(fs: seq<Filter>)
    requires fs != [] && CleanFilters(fs)
    ensures CleanFilters(fs[1..])
  {
    forall i | 0 <= i < |fs[1..]| ensures fs[1..][i] == fs[i + 1] { }
  }

  /** The condition one filter pushes holds exactly the placeholders for the
      values it pushes, numbered from `$start`, and does not begin with a digit. */
  lemma FilterCondNumbered(f: Filter, start: nat)
    requires CleanFilter(f)
    ensures Flatten(Scans(FilterCond(f, start))) == Range(start, |FilterVals(f)|)
    ensures forall i :: 0 <= i < |FilterCond(f, start)| ==> StartsClean(FilterCond(f, start)[i])
  {
    match f
    case InFilter(c, items) =>
      if items.Some? {
        var cond := InList(c, start, |items.value|);
        ScanInList(c, start, |items.value|);
        FlattenCons(Scan(cond), []);
        assert cond[0] == c[0];
      }
    case CompareFilter(l, item) =>
      if item.Some? {
        var cond := l + " " + Placeholder(start);
        ScanNoDollar(l + " ");
        ScanPlaceholder(start);
        ScanAppend(l + " ", Placeholder(start));
        FlattenCons(Scan(cond), []);
        assert cond[0] == l[0];
      }
  }

  /** The numbering invariant: the conditions the filters produce, read left to
      right, hold exactly the placeholders $start .. $start+|values|-1, in the
      order the values were pushed, and none begins with a digit. */
  lemma {:induction false} FilterConditionsNumbered(fs: seq<Filter>, start: nat)
    requires CleanFilters(fs)
    ensures Flatten(Scans(FilterConditions(fs, start))) == Range(start, |FilterValues(fs)|)
    ensures forall i :: 0 <= i < |FilterConditions(fs, start)| ==> StartsClean(FilterConditions(fs, start)[i])
    decreases |fs|
  {
    if fs != [] {
      CleanFiltersTail(fs);
      var n := |FilterVals(fs[0])|;
      var m := |FilterValues(fs[1..])|;
      var head := FilterCond(fs[0], start);
      var rest := FilterConditions(fs[1..], start + n);
      assert CleanFilter(fs[0]);
      FilterCondNumbered(fs[0], start);
      FilterConditionsNumbered(fs[1..], start + n);
      assert FilterConditions(fs, start) == head + rest;
      assert |FilterValues(fs)| == n + m;
      ScansAppend(head, rest);
      FlattenConcat(Scans(head), Scans(rest));
      RangeAppend(start, n, m);
      forall i | 0 <= i < |head + rest|
        ensures StartsClean((head + rest)[i])
      {
        if i >= |head| {
          assert (head + rest)[i] == rest[i - |head|];
        }
      }
    }
  }

  lemma JoinSnoc(sep: string, parts: seq<string>, last: string)
    requires parts != []
    ensures Join(sep, parts + [last]) == Join(sep, parts) + sep + last
    decreases |parts|
  {
    if |parts| > 1 {
      assert (parts + [last])[1..] == parts[1..] + [last];
      JoinSnoc(sep, parts[1..], last);
    }
  }

  /** `if (conditions.length > 0) query += ' WHERE ' + conditions.join(' AND ')` */
  function WhereClause(conds: seq<string>): string
  {
    if |conds| > 0 then " WHERE " + Join(" AND ", conds) else ""
  }

  /** A WHERE clause reads as the concatenation of its conditions' placeholders. */
  lemma ScanWhere(conds: seq<string>)
    requires forall i :: 0 <= i < |conds| ==> StartsClean(conds[i])
    ensures Scan(WhereClause(conds)) == Flatten(Scans(conds))
    ensures StartsClean(WhereClause(conds))
  {
    if |conds| > 0 {
      ScanJoin(" AND ", conds);
      ScanNoDollar(" WHERE ");
      ScanAppend(" WHERE ", Join(" AND ", conds));
    }
  }

  /** One step of a builder: compute the placeholders for the list, push the
      condition, push the values, advance `paramIndex` by the list's length. */
  method PushInFilter(conditions: seq<string>, values: seq<Value>, paramIndex: nat, column: string, items: seq<Value>)
    returns (conditions': seq<string>, values': seq<Value>, paramIndex': nat)
    ensures conditions' == conditions + [InList(column, paramIndex, |items|)]
    ensures values' == values + items
    ensures paramIndex' == paramIndex + |items|
  {
    var placeholders := PlaceholderTexts(paramIndex, |items|);
    conditions' := conditions + [column + " IN (" + Join(",", placeholders) + ")"];
    values' := values + items;
    paramIndex' := paramIndex + |items|;
  }


  /** Fixed text around a WHERE clause adds no placeholder and splits none. */
  lemma ScanFramed(head: string, mid: string, tail: string)
    requires '$' !in head && '$' !in tail && StartsClean(mid) && StartsClean(tail)
    ensures Scan(head + mid + tail) == Scan(mid)
  {
    ScanNoDollar(head);
    ScanNoDollar(tail);
    ScanAppend(mid, tail);
    ScanAppend(head, mid + tail);
    assert head + mid + tail == head + (mid + tail);
  }

  /** A statement whose text is fixed text, the WHERE clause of `conds`, and
      fixed text, reads back as $1..$n when the conditions are numbered so. */
  lemma ScanStatement(head: string, conds: seq<string>, tail: string, n: nat)
    requires '$' !in head && '$' !in tail && StartsClean(tail)
    requires forall i :: 0 <= i < |conds| ==> StartsClean(conds[i])
    requires Flatten(Scans(conds)) == Range(1, n)
    ensures Scan(head + WhereClause(conds) + tail) == Range(1, n)
  {
    ScanWhere(conds);
    ScanFramed(head, WhereClause(conds), tail);
  }

  lemma {:induction false} ValuesSnoc(fs: seq<Filter>, f: Filter)
    ensures FilterValues(fs + [f]) == FilterValues(fs) + FilterVals(f)
    decreases |fs|
  {
    if fs == [] {
      assert fs + [f] == [f] + [];
      FiltersCons(f, [], 1);
    } else {
      assert fs + [f] == [fs[0]] + (fs[1..] + [f]);
      FiltersCons(fs[0], fs[1..] + [f], 1);
      ValuesSnoc(fs[1..], f);
      FiltersCons(fs[0], fs[1..], 1);
      assert [fs[0]] + fs[1..] == fs;
    }
  }

  /** Appending a filter appends its condition, numbered after every value
      already pushed. */
  lemma ConditionsSnoc(fs: seq<Filter>, f: Filter, start: nat)
    ensures FilterConditions(fs + [f], start) == FilterConditions(fs, start) + FilterCond(f, start + |FilterValues(fs)|)
  {
    ConditionsSnocAt(fs, f, start, start + |FilterValues(fs)|);
  }

  lemma {:induction false} ConditionsSnocAt(fs: seq<Filter>, f: Filter, start: nat, n: nat)
    requires n == start + |FilterValues(fs)|
    ensures FilterConditions(fs + [f], start) == FilterConditions(fs, start) + FilterCond(f, n)
    decreases |fs|
  {
    if fs == [] {
      assert fs + [f] == [f] + [];
      FiltersCons(f, [], start);
    } else {
      var h, t := fs[0], fs[1..];
      var s' := start + |FilterVals(h)|;
      assert (fs + [f])[0] == h && (fs + [f])[1..] == t + [f];
      ConditionsSnocAt(t, f, s', n);
      AppendAssoc(FilterCond(h, start), FilterConditions(t, s'), FilterCond(f, n));
    }
  }

  lemma Values2(a: Filter, b: Filter)
    ensures FilterValues([a, b]) == FilterVals(a) + FilterVals(b)
  {
    assert [a, b] == [a] + [b];
    FiltersCons(a, [b], 1);
    FiltersCons(b, [], 1);
  }

  lemma Values3(a: Filter, b: Filter, c: Filter)
    ensures FilterValues([a, b, c]) == FilterVals(a) + FilterVals(b) + FilterVals(c)
  {
    assert [a, b, c] == [a] + [b, c];
    FiltersCons(a, [b, c], 1);
    Values2(b, c);
  }

  lemma {:induction false} ValuesAppend(xs: seq<Filter>, ys: seq<Filter>)
    ensures FilterValues(xs + ys) == FilterValues(xs) + FilterValues(ys)
    decreases |xs|
  {
    if xs == [] {
      assert xs + ys == ys;
    } else {
      assert xs + ys == [xs[0]] + (xs[1..] + ys);
      FiltersCons(xs[0], xs[1..] + ys, 1);
      ValuesAppend(xs[1..], ys);
      FiltersCons(xs[0], xs[1..], 1);
      assert xs == [xs[0]] + xs[1..];
    }
  }

  /** One filter's push, as the controller performs it, is what `FilterCond`
      and `FilterVals` specify. */
  method Apply(conditions: seq<string>, values: seq<Value>, paramIndex: nat, f: Filter)
    returns (conditions': seq<string>, values': seq<Value>, paramIndex': nat)
    ensures conditions' == conditions + FilterCond(f, paramIndex)
    ensures values' == values + FilterVals(f)
    ensures paramIndex' == paramIndex + |FilterVals(f)|
  {
    match f
    case InFilter(column, items) =>
      if items.Some? {
        conditions', values', paramIndex' := PushInFilter(conditions, values, paramIndex, column, items.value);
      } else {
        conditions', values', paramIndex' := conditions, values, paramIndex;
      }
    case CompareFilter(lhs, item) =>
      if item.Some? {
        conditions' := conditions + [lhs + " " + Placeholder(paramIndex)];
        values' := values + [item.value];
        paramIndex' := paramIndex + 1;
      } else {
        conditions', values', paramIndex' := conditions, values, paramIndex;
      }
  }

  /** The state of a builder after its first k filter blocks: the conditions and
      values those blocks specify, and `paramIndex` one past the values. */
  predicate Built(fs: seq<Filter>, k: nat, conditions: seq<string>, values: seq<Value>, paramIndex: nat)
    requires k <= |fs|
  {
    conditions == FilterConditions(fs[..k], 1) && values == FilterValues(fs[..k]) && paramIndex == |values| + 1
  }

  /** Running the next filter block keeps `paramIndex == |values| + 1`. */
  method Step(fs: seq<Filter>, k: nat, conditions: seq<string>, values: seq<Value>, paramIndex: nat)
    returns (conditions': seq<string>, values': seq<Value>, paramIndex': nat)
    requires k < |fs| && Built(fs, k, conditions, values, paramIndex)
    ensures Built(fs, k + 1, conditions', values', paramIndex')
  {
    conditions', values', paramIndex' := Apply(conditions, values, paramIndex, fs[k]);
    assert fs[..k + 1] == fs[..k] + [fs[k]];
    ValuesSnoc(fs[..k], fs[k]);
    ConditionsSnoc(fs[..k], fs[k], 1);
  }

  lemma BuiltStart(fs: seq<Filter>)
    ensures Built(fs, 0, [], [], 1)
  {
    assert fs[..0] == [];
  }

  lemma BuiltAll(fs: seq<Filter>, conditions: seq<string>, values: seq<Value>, paramIndex: nat)
    requires Built(fs, |fs|, conditions, values, paramIndex)
    ensures conditions == FilterConditions(fs, 1) && values == FilterValues(fs)
  {
    assert fs[..|fs|] == fs;
  }

  /** The statement a list endpoint sends: fixed text, the WHERE clause of its
      filters' conditions, fixed text; the values in filter order. */
  function ListStatement(head: string, fs: seq<Filter>, tail: string): Statement
  {
    Statement(head + WhereClause(FilterConditions(fs, 1)) + tail, FilterValues(fs))
  }

  /** Every such statement is consistently numbered: its text holds the
      placeholders $1..$n, in order, for its n values. */
  lemma ScanListStatement(head: string, fs: seq<Filter>, tail: string)
    requires '$' !in head && '$' !in tail && StartsClean(tail) && CleanFilters(fs)
    ensures Scan(ListStatement(head, fs, tail).text) == Range(1, |ListStatement(head, fs, tail).params|)
  {
    FilterConditionsNumbered(fs, 1);
    ScanStatement(head, FilterConditions(fs, 1), tail, |FilterValues(fs)|);
  }

  lemma Assoc(a: string, b: string, c: string)
    ensures a + b + c == a + (b + c)
  {
  }

  /** The controllers' `if (conditions.length > 0) query += " WHERE " + ...`. */
  lemma WhereAppend(head: string, conds: seq<string>)
    ensures (if |conds| > 0 then head + " WHERE " + Join(" AND ", conds) else head) == head + WhereClause(conds)
  {
    if |conds| == 0 {
      assert head + "" == head;
    }
  }

  lemma Assoc5(a: string, b: string, c: string, d: string, e: string)
    ensures a + b + c + d + e == a + (b + (c + d + e))
  {
  }

  /** The values a list filter contributes, read off the request field. */
  function Pushed(f: Field): seq<Value>
  {
    if FieldTruthy(f) then AsList(f) else []
  }

  // ---------------------------------------------------------------- getFuncionario

  /** The query text, with its line breaks and indentation read as single
      spaces, cut into short pieces as the listing query is. */
  const FuncionarioSelect1: string := "SELECT PES.*, FUN.CODIGOFUNCIONARIO, "
  const FuncionarioSelect2: string := "FUN.EMAIL, FUN.DATAADMISSAO, "
  const FuncionarioSelect3: string := "FUN.PRIVILEGIO "
  const FuncionarioSelect4: string := "FROM PESSOA PES JOIN FUNCIONARIO FUN "
  const FuncionarioSelect5: string := "ON PES.CODIGOPESSOA = FUN.CODIGOPESSOA "
  const FuncionarioSelect: string := FuncionarioSelect1 + FuncionarioSelect2 + FuncionarioSelect3 + FuncionarioSelect4 + FuncionarioSelect5
  const FuncionarioGroupBy1: string := " GROUP BY PES.CODIGOPESSOA, "
  const FuncionarioGroupBy2: string := "PES.NOME, PES.CONTATO, "
  const FuncionarioGroupBy3: string := "FUN.CODIGOFUNCIONARIO"
  const FuncionarioGroupBy: string := FuncionarioGroupBy1 + FuncionarioGroupBy2 + FuncionarioGroupBy3
  const EmployeesOnly: string := "PES.TIPOPESSOA = 2"

  lemma FuncionarioSelect1Clean() ensures '$' !in FuncionarioSelect1 { }
  lemma FuncionarioSelect2Clean() ensures '$' !in FuncionarioSelect2 { }
  lemma FuncionarioSelect3Clean() ensures '$' !in FuncionarioSelect3 { }
  lemma FuncionarioSelect4Clean() ensures '$' !in FuncionarioSelect4 { }
  lemma FuncionarioSelect5Clean() ensures '$' !in FuncionarioSelect5 { }
  lemma FuncionarioSelectClean() ensures '$' !in FuncionarioSelect
  {
    FuncionarioSelect1Clean();
    FuncionarioSelect2Clean();
    FuncionarioSelect3Clean();
    FuncionarioSelect4Clean();
    FuncionarioSelect5Clean();
  }
  lemma FuncionarioGroupBy1Clean() ensures '$' !in FuncionarioGroupBy1 { }
  lemma FuncionarioGroupBy2Clean() ensures '$' !in FuncionarioGroupBy2 { }
  lemma FuncionarioGroupBy3Clean() ensures '$' !in FuncionarioGroupBy3 { }
  lemma FuncionarioGroupByClean() ensures '$' !in FuncionarioGroupBy
  {
    FuncionarioGroupBy1Clean();
    FuncionarioGroupBy2Clean();
    FuncionarioGroupBy3Clean();
  }

  /** The filters of `getFuncionario`, in the order the controller applies them. */
  /** The columns of the employee filters. */
  const EmployeeColumn := "FUN.CODIGOFUNCIONARIO"
  const PrivilegeColumn := "FUN.PRIVILEGIO"
  const SituacaoColumn := "SITUACAO"

  lemma EmployeeColumnClean() ensures CleanText(EmployeeColumn) { }
  lemma PrivilegeColumnsClean() ensures CleanText(PrivilegeColumn) && CleanText(SituacaoColumn) { }

  function FuncionarioFilters(funcionario: Field, privilegio: Field, situacao: Field): (fs: seq<Filter>)
    ensures CleanFilters(fs)
  {
    EmployeeColumnClean();
    PrivilegeColumnsClean();
    [ InFilter(EmployeeColumn, Selected(funcionario)),
      InFilter(PrivilegeColumn, Selected(privilegio)),
      InFilter(SituacaoColumn, SelectedNumbers(situacao)) ]
  }

  /** The statement `getFuncionario` sends: the filters' conditions with the
      person-type clause restricting to employees AND-ed after them, or alone. */
  function FuncionarioStatement(funcionario: Field, privilegio: Field, situacao: Field): Statement
  {
    var fs := FuncionarioFilters(funcionario, privilegio, situacao);
    Statement(FuncionarioSelect + WhereClause(FilterConditions(fs, 1) + [EmployeesOnly]) + FuncionarioGroupBy,
              FilterValues(fs))
  }

  /** Employee ids, then privileges, then situacao values coerced with `Number`. */
  lemma FuncionarioParams(funcionario: Field, privilegio: Field, situacao: Field)
    ensures FuncionarioStatement(funcionario, privilegio, situacao).params ==
      Pushed(funcionario) + Pushed(privilegio) + NumbersOf(Pushed(situacao))
  {
    var fs := FuncionarioFilters(funcionario, privilegio, situacao);
    Values3(fs[0], fs[1], fs[2]);
    assert fs == [fs[0], fs[1], fs[2]];
  }

  /** A condition AND-ed after the filters' conditions adds no placeholder. */
  lemma ScanStatementExtra(head: string, conds: seq<string>, extra: string, tail: string, n: nat)
    requires '$' !in head && '$' !in tail && StartsClean(tail) && '$' !in extra && StartsClean(extra)
    requires forall i :: 0 <= i < |conds| ==> StartsClean(conds[i])
    requires Flatten(Scans(conds)) == Range(1, n)
    ensures Scan(head + WhereClause(conds + [extra]) + tail) == Range(1, n)
  {
    var all := conds + [extra];
    assert Scans(all) == Scans(conds) + [Scan(extra)];
    ScanNoDollar(extra);
    FlattenAppend(Scans(conds), []);
    assert forall i :: 0 <= i < |all| ==> StartsClean(all[i]);
    ScanStatement(head, all, tail, n);
  }

  /** The two branches of the employee query's WHERE clause are one clause. */
  lemma ExtraWhere(head: string, conds: seq<string>, extra: string, tail: string)
    ensures conds != [] ==>
      head + " WHERE " + Join(" AND ", conds) + " AND " + extra + tail == head + WhereClause(conds + [extra]) + tail
    ensures conds == [] ==> head + " WHERE " + extra + tail == head + WhereClause(conds + [extra]) + tail
  {
    if conds != [] {
      JoinSnoc(" AND ", conds, extra);
      Assoc5(head, " WHERE ", Join(" AND ", conds), " AND ", extra);
    } else {
      assert conds + [extra] == [extra];
      Assoc(head, " WHERE ", extra);
    }
  }

  lemma EmployeesOnlyClean() ensures '$' !in EmployeesOnly && StartsClean(EmployeesOnly) { }

  /** The text is numbered $1..$n for its n values. The employee clause is
      always present, so the query never lists students or professors. */
  lemma FuncionarioNumbered(funcionario: Field, privilegio: Field, situacao: Field)
    ensures Scan(FuncionarioStatement(funcionario, privilegio, situacao).text) ==
      Range(1, |FuncionarioStatement(funcionario, privilegio, situacao).params|)
  {
    var fs := FuncionarioFilters(funcionario, privilegio, situacao);
    FilterConditionsNumbered(fs, 1);
    FuncionarioSelectClean();
    FuncionarioGroupByClean();
    EmployeesOnlyClean();
    ScanStatementExtra(FuncionarioSelect, FilterConditions(fs, 1), EmployeesOnly, FuncionarioGroupBy, |FilterValues(fs)|);
  }

  /** The three filter blocks of `getFuncionario`, run in order. */
  method FuncionarioConditions(funcionario: Field, privilegio: Field, situacao: Field)
    returns (conditions: seq<string>, values: seq<Value>)
    ensures conditions == FilterConditions(FuncionarioFilters(funcionario, privilegio, situacao), 1)
    ensures values == FilterValues(FuncionarioFilters(funcionario, privilegio, situacao))
  {
    var fs := FuncionarioFilters(funcionario, privilegio, situacao);
    conditions, values := [], [];
    var paramIndex: nat := 1;
    BuiltStart(fs);
    conditions, values, paramIndex := Step(fs, 0, conditions, values, paramIndex);
    conditions, values, paramIndex := Step(fs, 1, conditions, values, paramIndex);
    conditions, values, paramIndex := Step(fs, 2, conditions, values, paramIndex);
    BuiltAll(fs, conditions, values, paramIndex);
  }

  /** `getFuncionario`'s statement, built as the controller builds it. */
  method FuncionarioQuery(funcionario: Field, privilegio: Field, situacao: Field) returns (stmt: Statement)
    ensures stmt == FuncionarioStatement(funcionario, privilegio, situacao)
  {
    var conditions, values := FuncionarioConditions(funcionario, privilegio, situacao);
    var query := FuncionarioSelect;
    if |conditions| > 0 {
      query := query + " WHERE " + Join(" AND ", conditions) + " AND " + EmployeesOnly;
    } else {
      query := query + " WHERE " + EmployeesOnly;
    }
    query := query + FuncionarioGroupBy;
    ExtraWhere(FuncionarioSelect, conditions, EmployeesOnly, FuncionarioGroupBy);
    stmt := Statement(query, values);
  }

  // ---------------------------------------------------------------- getDisciplina

  const DisciplinaSelect: string := " SELECT *, 0 AS sync FROM DISCIPLINA "
  const DisciplinaGroupBy: string := " GROUP BY CODIGODISCIPLINA, " + "NOME, OBSERVACAO, SITUACAO"

  lemma DisciplinaGroupByClean() ensures '$' !in DisciplinaGroupBy { }

  /** The filters of `getDisciplina`: situacao first, then the discipline ids. */
  function DisciplinaFilters(disciplina: Field, situacao: Field): (fs: seq<Filter>)
    ensures CleanFilters(fs)
  {
    [ InFilter("SITUACAO", SelectedNumbers(situacao)),
      InFilter("CODIGODISCIPLINA", Selected(disciplina)) ]
  }

  function DisciplinaStatement(disciplina: Field, situacao: Field): Statement
  {
    ListStatement(DisciplinaSelect, DisciplinaFilters(disciplina, situacao), DisciplinaGroupBy)
  }

  /** Situacao values coerced with `Number`, then discipline ids, numbered $1..$n. */
  lemma DisciplinaStatementSound(disciplina: Field, situacao: Field)
    ensures DisciplinaStatement(disciplina, situacao).params == NumbersOf(Pushed(situacao)) + Pushed(disciplina)
    ensures Scan(DisciplinaStatement(disciplina, situacao).text) == Range(1, |DisciplinaStatement(disciplina, situacao).params|)
  {
    var fs := DisciplinaFilters(disciplina, situacao);
    Values2(fs[0], fs[1]);
    assert fs == [fs[0], fs[1]];
    DisciplinaGroupByClean();
    assert '$' !in DisciplinaSelect;
    ScanListStatement(DisciplinaSelect, fs, DisciplinaGroupBy);
  }

  /** `getDisciplina`'s statement, built as the controller builds it; WHERE
      appears only when a filter is set. */
  method DisciplinaQuery(disciplina: Field, situacao: Field) returns (stmt: Statement)
    ensures stmt == DisciplinaStatement(disciplina, situacao)
  {
    var fs := DisciplinaFilters(disciplina, situacao);
    var conditions: seq<string> := [];
    var values: seq<Value> := [];
    var paramIndex: nat := 1;
    BuiltStart(fs);
    conditions, values, paramIndex := Step(fs, 0, conditions, values, paramIndex);
    conditions, values, paramIndex := Step(fs, 1, conditions, values, paramIndex);
    BuiltAll(fs, conditions, values, paramIndex);
    var query := DisciplinaSelect;
    if |conditions| > 0 {
      query := query + " WHERE " + Join(" AND ", conditions);
    }
    WhereAppend(DisciplinaSelect, conditions);
    query := query + DisciplinaGroupBy;
    stmt := Statement(query, values);
  }

  // ---------------------------------------------------------------- getAutor

  const AutorSelect: string := "SELECT * FROM AUTOR"
  const AutorGroupBy: string := " GROUP BY CODIGOAUTOR, NOME, " + "OBSERVACAO, SITUACAO"

  lemma AutorGroupByClean() ensures '$' !in AutorGroupBy { }

  /** The filters of `getAutor`: author ids, then situacao. */
  function AutorFilters(autor: Field, situacao: Field): (fs: seq<Filter>)
    ensures CleanFilters(fs)
  {
    [ InFilter("CODIGOAUTOR", Selected(autor)),
      InFilter("SITUACAO", SelectedNumbers(situacao)) ]
  }

  function AutorStatement(autor: Field, situacao: Field): Statement
  {
    ListStatement(AutorSelect, AutorFilters(autor, situacao), AutorGroupBy)
  }

  /** Author ids, then situacao values coerced with `Number`, numbered $1..$n. */
  lemma AutorStatementSound(autor: Field, situacao: Field)
    ensures AutorStatement(autor, situacao).params == Pushed(autor) + NumbersOf(Pushed(situacao))
    ensures Scan(AutorStatement(autor, situacao).text) == Range(1, |AutorStatement(autor, situacao).params|)
  {
    var fs := AutorFilters(autor, situacao);
    Values2(fs[0], fs[1]);
    assert fs == [fs[0], fs[1]];
    AutorGroupByClean();
    assert '$' !in AutorSelect;
    ScanListStatement(AutorSelect, fs, AutorGroupBy);
  }

  /** The statement `getAutor` builds, as the controller builds it. */
  method AutorQuery(autor: Field, situacao: Field) returns (stmt: Statement)
    ensures stmt == AutorStatement(autor, situacao)
  {
    var fs := AutorFilters(autor, situacao);
    var conditions: seq<string> := [];
    var values: seq<Value> := [];
    var paramIndex: nat := 1;
    BuiltStart(fs);
    conditions, values, paramIndex := Step(fs, 0, conditions, values, paramIndex);
    conditions, values, paramIndex := Step(fs, 1, conditions, values, paramIndex);
    BuiltAll(fs, conditions, values, paramIndex);
    var query := AutorSelect;
    if |conditions| > 0 {
      query := query + " WHERE " + Join(" AND ", conditions);
    }
    WhereAppend(AutorSelect, conditions);
    query := query + AutorGroupBy;
    stmt := Statement(query, values);
  }

  /** `getAutor`: the token gate first (401, no statement sent), then the
      statement; a failing query is caught and answered 500. */
  method GetAutor(token: Option<string>, verified: Option<Claims>, autor: Field, situacao: Field, queryFails: bool)
    returns (code: int, stmt: Option<Statement>)
    ensures TokenGate(token, verified).Some? ==> code == UNAUTHORIZED && stmt.None?
    ensures TokenGate(token, verified).None? ==>
      stmt == Some(AutorStatement(autor, situacao)) && code == (if queryFails then SERVER_ERROR else OK)
  {
    var gate := TokenGate(token, verified);
    if gate.Some? {
      return gate.value, None;
    }
    var s := AutorQuery(autor, situacao);
    stmt := Some(s);
    code := if queryFails then SERVER_ERROR else OK;
  }
}
