/** The DISCIPLINA table as `postDisciplina`, `putDisciplina` and
    `deleteDisciplina` change it. Statements are counted from 0 (BEGIN) for
    the fault oracle `failAt`; every failure of these three replies 400. */
module Subjects {
  import opened Common
  import opened SqlText

  datatype SubjectBody = SubjectBody(codigodisciplina: Option<Value>, nome: Option<Value>,
                                     observacao: Option<Value>, situacao: Option<Value>)

  /** A stored row; a `situacao` of None on insert is the column default. */
  datatype Subject = Subject(id: int, name: Option<Value>, note: Option<Value>, situacao: Option<Value>)

  /** One element of the reply: `{ ...rowsReturned[0], sync: 0 }`. */
  datatype Reply = Reply(row: Option<Subject>, sync: int)

  /** The rows the insert loop creates, one per element, with consecutive ids. */
  function NewRows(next: int, items: seq<SubjectBody>): (ns: seq<Subject>)
    ensures |ns| == |items|
    ensures forall i :: 0 <= i < |items| ==> ns[i] == Subject(next + i, items[i].nome, items[i].observacao, None)
  {
    seq(|items|, i requires 0 <= i < |items| => Subject(next + i, items[i].nome, items[i].observacao, None))
  }

  /** The table after storing `ns` one row at a time. */
  function Added(rows: map<int, Subject>, ns: seq<Subject>): map<int, Subject>
    decreases |ns|
  {
    if ns == [] then rows else Added(rows, ns[..|ns| - 1])[ns[|ns| - 1].id := ns[|ns| - 1]]
  }

  /** The insert keeps every old row and adds exactly the new ids, each holding its element. */
  lemma {:induction false} AddedEffect(rows: map<int, Subject>, next: int, items: seq<SubjectBody>)
    requires forall id :: id in rows ==> id < next
    ensures forall id :: id in Added(rows, NewRows(next, items)) <==> id in rows || next <= id < next + |items|
    ensures forall id :: id in rows ==> Added(rows, NewRows(next, items))[id] == rows[id]
    ensures forall i :: 0 <= i < |items| ==>
      Added(rows, NewRows(next, items))[next + i] == Subject(next + i, items[i].nome, items[i].observacao, None)
    decreases |items|
  {
    if items != [] {
      var n := |items| - 1;
      assert NewRows(next, items)[..n] == NewRows(next, items[..n]);
      AddedEffect(rows, next, items[..n]);
    }
  }

  /** The replies of the insert loop: every stored row plus `sync` 0. The
      pointwise `ensures` is the definition, in the form the method contracts use. */
  function Replies(ns: seq<Subject>): (r: seq<Reply>)
    ensures |r| == |ns| && forall i :: 0 <= i < |ns| ==> r[i] == Reply(Some(ns[i]), 0)
  {
    seq(|ns|, i requires 0 <= i < |ns| => Reply(Some(ns[i]), 0))
  }

  /** `UPDATE DISCIPLINA SET NOME = $1, OBSERVACAO = $2, SITUACAO = $3 WHERE CODIGODISCIPLINA = $4`. */
  function UpdateOne(rows: map<int, Subject>, b: SubjectBody): (r: map<int, Subject>)
    ensures r.Keys == rows.Keys
  {
    var k := KeyOf(b.codigodisciplina);
    if k.Key? && k.id in rows then rows[k.id := Subject(k.id, b.nome, b.observacao, b.situacao)] else rows
  }

  /** The update loop, element by element. */
  function UpdateAll(rows: map<int, Subject>, items: seq<SubjectBody>): map<int, Subject>
    decreases |items|
  {
    if items == [] then rows else UpdateOne(UpdateAll(rows, items[..|items| - 1]), items[|items| - 1])
  }

  /** The update keeps the set of rows, leaves every row no element names
      untouched, and, for every row, the last element naming it decides its
      fields. */
  lemma {:induction false} UpdateAllEffect(rows: map<int, Subject>, items: seq<SubjectBody>)
    ensures UpdateAll(rows, items).Keys == rows.Keys
    ensures forall id :: id in rows && (forall j :: 0 <= j < |items| ==> KeyOf(items[j].codigodisciplina) != Key(id)) ==>
      UpdateAll(rows, items)[id] == rows[id]
    ensures forall id :: id in rows && |items| > 0 && KeyOf(items[|items| - 1].codigodisciplina) == Key(id) ==>
      UpdateAll(rows, items)[id] ==
        Subject(id, items[|items| - 1].nome, items[|items| - 1].observacao, items[|items| - 1].situacao)
    ensures forall id, j ::
      id in rows && 0 <= j < |items| && KeyOf(items[j].codigodisciplina) == Key(id) &&
      (forall j' :: j < j' < |items| ==> KeyOf(items[j'].codigodisciplina) != Key(id))
      ==> UpdateAll(rows, items)[id] == Subject(id, items[j].nome, items[j].observacao, items[j].situacao)
    decreases |items|
  {
    if items != [] {
      var n := |items| - 1;
      UpdateAllEffect(rows, items[..n]);
      assert forall j :: 0 <= j < n ==> items[..n][j] == items[j];
      forall id | id in rows && (forall j :: 0 <= j < |items| ==> KeyOf(items[j].codigodisciplina) != Key(id))
        ensures UpdateAll(rows, items)[id] == rows[id]
      {
      }
      forall id, j | id in rows && 0 <= j < |items| && KeyOf(items[j].codigodisciplina) == Key(id) &&
                     (forall j' :: j < j' < |items| ==> KeyOf(items[j'].codigodisciplina) != Key(id))
        ensures UpdateAll(rows, items)[id] == Subject(id, items[j].nome, items[j].observacao, items[j].situacao)
      {
        if j < n {
          // The final element names another row, so the fields come from the prefix.
          assert KeyOf(items[n].codigodisciplina) != Key(id);
          assert UpdateAll(rows, items)[id] == UpdateAll(rows, items[..n])[id];
        }
      }
    }
  }

  /** The update statement has no RETURNING, so each reply element is `{ sync: 0 }` alone. */
  function BareReplies(n: nat): (r: seq<Reply>)
    ensures |r| == n && forall i :: 0 <= i < n ==> r[i] == Reply(None, 0)
  {
    seq(n, i requires 0 <= i < n => Reply(None, 0))
  }

  predicate Readable(items: seq<SubjectBody>)
  {
    forall j :: 0 <= j < |items| ==> KeyOf(items[j].codigodisciplina) != BadKey
  }

  const DeleteHead: string := "DELETE FROM DISCIPLINA"
  const DeleteWhere: string := " WHERE CODIGODISCIPLINA IN ("

  lemma DeleteHeadClean() ensures '$' !in DeleteHead { }
  lemma DeleteWhereClean() ensures '$' !in DeleteWhere { }

  /** The delete statement over n ids: placeholders joined by ", ". */
  function DeleteText(n: nat): string
  {
    DeleteHead + DeleteWhere + Join(", ", Placeholders(1, n)) + ")"
  }

  /** The delete statement's placeholders are exactly `$1..$n`, in order. */
  lemma DeleteTextNumbered(n: nat)
    ensures Scan(DeleteText(n)) == Range(1, n)
  {
    var body := Join(", ", Placeholders(1, n));
    ScanPlaceholderList(", ", 1, n);
    DeleteHeadClean();
    DeleteWhereClean();
    ScanNoDollar(DeleteHead + DeleteWhere);
    ScanNoDollar(")");
    ScanAppend(body, ")");
    ScanAppend(DeleteHead + DeleteWhere, body + ")");
    assert DeleteText(n) == (DeleteHead + DeleteWhere) + (body + ")");
  }

  /** `disciplinas.map(d => d.codigodisciplina)` as Postgres reads each. */
  function KeysOf(ids: seq<Option<Value>>): (ks: seq<Key>)
    ensures |ks| == |ids| && forall i :: 0 <= i < |ids| ==> ks[i] == KeyOf(ids[i])
  {
    seq(|ids|, i requires 0 <= i < |ids| => KeyOf(ids[i]))
  }

  /** `DELETE ... WHERE CODIGODISCIPLINA IN (...)`: a row goes iff some key names it. */
  function RemovedAll(rows: map<int, Subject>, ks: seq<Key>): (r: map<int, Subject>)
    ensures forall id :: id in r <==> id in rows && Key(id) !in ks
    ensures forall id :: id in r ==> r[id] == rows[id]
  {
    map id | id in rows && Key(id) !in ks :: rows[id]
  }

  class SubjectTable {
    var rows: map<int, Subject>
    var nextId: int

    predicate Valid()
      reads this
    {
      forall id :: id in rows ==> rows[id].id == id && id < nextId
    }

    constructor ()
      ensures Valid() && rows == map[]
    {
      rows := map[];
      nextId := 1;
    }

    /** `postDisciplina`: 400 without a body, the token gate, then BEGIN (0),
        one INSERT per element (1..n), COMMIT (n + 1). */
    method Post(body: Option<OneOrMany<SubjectBody>>, token: Option<string>, verified: Option<Claims>, failAt: Option<nat>)
      returns (code: int, reply: seq<Reply>)
      requires Valid()
      modifies this
      ensures Valid()
      ensures body.None? ==> code == BAD_REQUEST
      ensures body.Some? && TokenGate(token, verified).Some? ==> code == UNAUTHORIZED
      ensures body.Some? && TokenGate(token, verified).None? &&
              !(failAt.Some? && failAt.value <= |Normalised(body.value)| + 1) ==>
        code == OK &&
        rows == Added(old(rows), NewRows(old(nextId), Normalised(body.value))) &&
        reply == Replies(NewRows(old(nextId), Normalised(body.value)))
      ensures body.Some? && TokenGate(token, verified).None? &&
              failAt.Some? && failAt.value <= |Normalised(body.value)| + 1 ==>
        code == BAD_REQUEST
      ensures code != OK ==> rows == old(rows) && reply == []
    {
      reply := [];
      if body.None? {
        return BAD_REQUEST, [];
      }
      var gate := TokenGate(token, verified);
      if gate.Some? {
        return gate.value, [];
      }
      var items := Normalised(body.value);
      var saved, next := rows, nextId;
      if Raises(failAt, 0) {
        return BAD_REQUEST, [];
      }
      var i := 0;
      while i < |items|
        invariant 0 <= i <= |items|
        invariant nextId == next + i && Valid()
        invariant rows == Added(saved, NewRows(next, items[..i]))
        invariant reply == Replies(NewRows(next, items[..i]))
        invariant !(failAt.Some? && failAt.value <= i)
      {
        if Raises(failAt, 1 + i) {
          rows, reply := saved, [];
          return BAD_REQUEST, [];
        }
        var row := Subject(nextId, items[i].nome, items[i].observacao, None);
        assert NewRows(next, items[..i + 1]) == NewRows(next, items[..i]) + [row];
        assert NewRows(next, items[..i + 1])[..i] == NewRows(next, items[..i]);
        rows := rows[nextId := row];
        reply := reply + [Reply(Some(row), 0)];
        nextId := nextId + 1;
        i := i + 1;
      }
      assert items[..i] == items;
      if Raises(failAt, 1 + |items|) {
        rows, reply := saved, [];
        return BAD_REQUEST, [];
      }
      code := OK;
    }

    /** `putDisciplina`: 400 without a body, the token gate, then BEGIN (0), one
        UPDATE per element (1..n), COMMIT (n + 1). */
    method Put(body: Option<OneOrMany<SubjectBody>>, token: Option<string>, verified: Option<Claims>, failAt: Option<nat>)
      returns (code: int, reply: seq<Reply>)
      requires Valid()
      modifies this
      ensures Valid() && nextId == old(nextId)
      ensures body.None? ==> code == BAD_REQUEST
      ensures body.Some? && TokenGate(token, verified).Some? ==> code == UNAUTHORIZED
      ensures body.Some? && TokenGate(token, verified).None? && !Readable(Normalised(body.value)) ==> code == BAD_REQUEST
      ensures body.Some? && TokenGate(token, verified).None? && Readable(Normalised(body.value)) &&
              !(failAt.Some? && failAt.value <= |Normalised(body.value)| + 1) ==>
        code == OK &&
        rows == UpdateAll(old(rows), Normalised(body.value)) &&
        reply == BareReplies(|Normalised(body.value)|)
      ensures body.Some? && TokenGate(token, verified).None? &&
              failAt.Some? && failAt.value <= |Normalised(body.value)| + 1 ==>
        code == BAD_REQUEST
      ensures code != OK ==> rows == old(rows) && reply == []
    {
      reply := [];
      if body.None? {
        return BAD_REQUEST, [];
      }
      var gate := TokenGate(token, verified);
      if gate.Some? {
        return gate.value, [];
      }
      var items := Normalised(body.value);
      var saved := rows;
      if Raises(failAt, 0) {
        return BAD_REQUEST, [];
      }
      var i := 0;
      while i < |items|
        invariant 0 <= i <= |items|
        invariant nextId == old(nextId) && Valid()
        invariant rows == UpdateAll(saved, items[..i])
        invariant reply == BareReplies(i)
        invariant forall j :: 0 <= j < i ==> KeyOf(items[j].codigodisciplina) != BadKey
        invariant !(failAt.Some? && failAt.value <= i)
      {
        if KeyOf(items[i].codigodisciplina) == BadKey || Raises(failAt, 1 + i) {
          rows, reply := saved, [];
          return BAD_REQUEST, [];
        }
        assert items[..i + 1][..i] == items[..i];
        rows := UpdateOne(rows, items[i]);
        reply := reply + [Reply(None, 0)];
        i := i + 1;
      }
      assert items[..i] == items;
      if Raises(failAt, 1 + |items|) {
        rows, reply := saved, [];
        return BAD_REQUEST, [];
      }
      code := OK;
    }

    /** `deleteDisciplina`: destructuring a missing body throws before the try
        (500); no list gives 400; then the gate, BEGIN (0), the one DELETE (1),
        COMMIT (2). An empty list makes the statement `IN ()`, which Postgres rejects. */
    method Delete(body: Payload<seq<Option<Value>>>, token: Option<string>, verified: Option<Claims>, failAt: Option<nat>)
      returns (code: int, stmt: Option<string>)
      requires Valid()
      modifies this
      ensures Valid() && nextId == old(nextId)
      ensures body.NoBody? ==> code == SERVER_ERROR
      ensures body.Body? && body.item.None? ==> code == BAD_REQUEST
      ensures body.Body? && body.item.Some? && TokenGate(token, verified).Some? ==> code == UNAUTHORIZED
      ensures body.Body? && body.item.Some? && TokenGate(token, verified).None? && !Raises(failAt, 0) ==>
        stmt == Some(DeleteText(|body.item.value|))
      ensures body.Body? && body.item.Some? && TokenGate(token, verified).None? && body.item.value == [] ==>
        code == BAD_REQUEST
      ensures body.Body? && body.item.Some? && TokenGate(token, verified).None? && body.item.value != [] &&
              BadKey !in KeysOf(body.item.value) && !(failAt.Some? && failAt.value <= 2) ==>
        code == OK && rows == RemovedAll(old(rows), KeysOf(body.item.value))
      ensures body.Body? && body.item.Some? && TokenGate(token, verified).None? &&
              (BadKey in KeysOf(body.item.value) || (failAt.Some? && failAt.value <= 2)) ==>
        code == BAD_REQUEST
      ensures code != OK ==> rows == old(rows)
    {
      stmt := None;
      if body.NoBody? {
        return SERVER_ERROR, None;
      }
      if body.item.None? {
        return BAD_REQUEST, None;
      }
      var gate := TokenGate(token, verified);
      if gate.Some? {
        return gate.value, None;
      }
      if Raises(failAt, 0) {
        return BAD_REQUEST, None;
      }
      var ids := body.item.value;
      var placeholders := PlaceholderTexts(1, |ids|);
      stmt := Some(DeleteHead + DeleteWhere + Join(", ", placeholders) + ")");
      var ks := KeysOf(ids);
      if ids == [] || BadKey in ks || Raises(failAt, 1) {
        return BAD_REQUEST, stmt;
      }
      var saved := rows;
      rows := RemovedAll(rows, ks);
      if Raises(failAt, 2) {
        rows := saved;
        return BAD_REQUEST, stmt;
      }
      code := OK;
    }
  }
}
